// The copies of every fact the master stores agree, in every reachable state.
module Consistency {
  import opened Common
  import opened Directory
  import opened PollTable
  import opened Registry
  import opened Machine

  // Name map, descriptor map and the fields of the participant itself.
  ghost predicate NamesAgree(ps: map<string, Participant>, sockets: map<nat, string>) {
    && (forall n :: n in ps ==>
          ps[n].name == n && ps[n].socket in sockets && sockets[ps[n].socket] == n)
    && (forall fd :: fd in sockets ==> sockets[fd] in ps && ps[sockets[fd]].socket == fd)
  }

  ghost predicate Holds(ps: map<string, Participant>, n: string, topic: string, typeId: uint32) {
    n in ps && topic in ps[n].topics && ps[n].topics[topic] == typeId
  }

  // The topic index is exactly the union of the participants' own topic lists.
  ghost predicate TopicsAgree(ps: map<string, Participant>, events: map<string, EventInfo>) {
    && (forall t :: t in events ==>
          events[t].name == t && Holds(ps, events[t].publisher, t, events[t].typeId))
    && (forall n, t :: n in ps && t in ps[n].topics ==> t in events && events[t].publisher == n)
  }

  ghost predicate Offers(ps: map<string, Participant>, n: string, name: string, types: MethodTypes) {
    n in ps && name in ps[n].methods && ps[n].methods[name] == types
  }

  ghost predicate MethodsAgree(ps: map<string, Participant>, methods: map<string, MethodInfo>) {
    && (forall m :: m in methods ==>
          methods[m].name == m && Offers(ps, methods[m].provider, m, methods[m].types))
    && (forall n, m :: n in ps && m in ps[n].methods ==> m in methods && methods[m].provider == n)
  }

  ghost predicate Consistent(r: Registry) {
    && |r.slots| == MAX_CONNECTIONS
    && NamesAgree(r.participants, r.sockets)
    && TopicsAgree(r.participants, r.events)
    && MethodsAgree(r.participants, r.methods)
  }

  ghost predicate Sound(m: Machine) {
    && Consistent(m.registry)
    && m.registry.sockets.Keys <= m.accepted
    && (m.phase.Serving? ==> m.phase.next < MAX_CONNECTIONS)
  }

  lemma StartSound()
    ensures Sound(START)
  {
  }

  // Both agreements read only the lists of the participants.
  lemma SameLists(ps: map<string, Participant>, ps': map<string, Participant>,
                  events: map<string, EventInfo>, methods: map<string, MethodInfo>)
    requires ps.Keys == ps'.Keys
    requires forall n :: n in ps ==> ps'[n].topics == ps[n].topics && ps'[n].methods == ps[n].methods
    ensures TopicsAgree(ps, events) ==> TopicsAgree(ps', events)
    ensures MethodsAgree(ps, methods) ==> MethodsAgree(ps', methods)
  {
  }

  lemma NewParticipantAgrees(r: Registry, p: Participant)
    requires Consistent(r) && p.name !in r.participants && p.socket !in r.sockets
    requires p.topics == map[] && p.methods == map[]
    ensures NamesAgree(r.participants[p.name := p], r.sockets[p.socket := p.name])
    ensures TopicsAgree(r.participants[p.name := p], r.events)
    ensures MethodsAgree(r.participants[p.name := p], r.methods)
  {
  }

  lemma AdmitConsistent(r: Registry, fd: nat, peer: Address, hello: Hello)
    requires Consistent(r) && fd !in r.sockets
    ensures Admit(r, fd, peer, hello).Done?
    ensures Consistent(Admit(r, fd, peer, hello).registry)
    ensures Admit(r, fd, peer, hello).registry.sockets.Keys <= r.sockets.Keys + {fd}
  {
    if hello.Hello? && hello.name !in r.participants {
      NewParticipantAgrees(r, Participant(hello.name, Contact(peer, hello.listening), fd, map[], map[], 0));
    }
  }

  lemma AgeConsistent(r: Registry, order: seq<string>)
    requires Consistent(r)
    ensures Consistent(Age(r, order))
  {
    SameLists(r.participants, Age(r, order).participants, r.events, r.methods);
  }

  // The keys listed with a participant are exactly the entries it owns, so erasing the former is
  // removing the latter.
  lemma TopicsErased(ps: map<string, Participant>, events: map<string, EventInfo>, name: string)
    requires TopicsAgree(ps, events) && name in ps
    ensures events - ps[name].topics.Keys == map t | t in events && events[t].publisher !in {name} :: events[t]
  {
    assert forall t :: t in events ==> (t in ps[name].topics <==> events[t].publisher == name);
  }

  lemma MethodsErased(ps: map<string, Participant>, methods: map<string, MethodInfo>, name: string)
    requires MethodsAgree(ps, methods) && name in ps
    ensures methods - ps[name].methods.Keys == map m | m in methods && methods[m].provider !in {name} :: methods[m]
  {
    assert forall m :: m in methods ==> (m in ps[name].methods <==> methods[m].provider == name);
  }

  lemma RemovalAgrees(ps: map<string, Participant>, sockets: map<nat, string>,
                      events: map<string, EventInfo>, methods: map<string, MethodInfo>, name: string)
    requires NamesAgree(ps, sockets) && name in ps
    ensures NamesAgree(ps - {name}, sockets - {ps[name].socket})
    ensures TopicsAgree(ps, events) ==> TopicsAgree(ps - {name}, events - ps[name].topics.Keys)
    ensures MethodsAgree(ps, methods) ==> MethodsAgree(ps - {name}, methods - ps[name].methods.Keys)
  {
    if TopicsAgree(ps, events) {
      forall n, t | n in ps - {name} && t in ps[n].topics
        ensures t in events - ps[name].topics.Keys
      {
        assert events[t].publisher == n;
      }
    }
    if MethodsAgree(ps, methods) {
      forall n, m | n in ps - {name} && m in ps[n].methods
        ensures m in methods - ps[name].methods.Keys
      {
        assert methods[m].provider == n;
      }
    }
  }

  lemma BuryConsistent(r: Registry)
    requires Consistent(r) && r.deadQueue != [] && BuryFront(r).Done?
    ensures Consistent(BuryFront(r).registry)
    ensures BuryFront(r).registry.sockets.Keys <= r.sockets.Keys
  {
    RemovalAgrees(r.participants, r.sockets, r.events, r.methods, r.deadQueue[0]);
  }

  lemma OwnerUpdateAgrees(r: Registry, n: string, p: Participant)
    requires Consistent(r) && n in r.participants
    requires p.name == n && p.socket == r.participants[n].socket
    ensures NamesAgree(r.participants[n := p], r.sockets)
  {
  }

  lemma TopicAddedAgrees(r: Registry, n: string, p: Participant, topic: string, typeId: uint32)
    requires Consistent(r) && n in r.participants && topic !in r.events
    requires p == r.participants[n].(topics := r.participants[n].topics[topic := typeId])
    ensures TopicsAgree(r.participants[n := p], r.events[topic := EventInfo(topic, typeId, n)])
    ensures MethodsAgree(r.participants[n := p], r.methods)
  {
  }

  lemma MethodAddedAgrees(r: Registry, n: string, p: Participant, name: string, types: MethodTypes)
    requires Consistent(r) && n in r.participants && name !in r.methods
    requires p == r.participants[n].(methods := r.participants[n].methods[name := types])
    ensures MethodsAgree(r.participants[n := p], r.methods[name := MethodInfo(name, types, n)])
    ensures TopicsAgree(r.participants[n := p], r.events)
  {
  }

  lemma ResetConsistent(r: Registry, fd: nat)
    requires Consistent(r) && ResetWatchdog(r, fd).Done?
    ensures Consistent(ResetWatchdog(r, fd).registry)
  {
    var n, p := r.sockets[fd], Sender(r, fd).value.(watchdog := 0);
    SameLists(r.participants, r.participants[n := p], r.events, r.methods);
    OwnerUpdateAgrees(r, n, p);
  }

  lemma RegisterConsistent(r: Registry, fd: nat, topic: string, typeId: Option<uint32>)
    requires Consistent(r) && RegisterTopic(r, fd, topic, typeId).Done?
    ensures Consistent(RegisterTopic(r, fd, topic, typeId).registry)
  {
    if topic !in r.events {
      var n, p := r.sockets[fd], Sender(r, fd).value;
      OwnerUpdateAgrees(r, n, p.(topics := p.topics[topic := typeId.value]));
      TopicAddedAgrees(r, n, p.(topics := p.topics[topic := typeId.value]), topic, typeId.value);
    }
  }

  lemma ProvideConsistent(r: Registry, fd: nat, name: string, types: Option<MethodTypes>)
    requires Consistent(r) && ProvideMethod(r, fd, name, types).Done?
    ensures Consistent(ProvideMethod(r, fd, name, types).registry)
  {
    if name !in r.methods {
      var n, p := r.sockets[fd], Sender(r, fd).value;
      OwnerUpdateAgrees(r, n, p.(methods := p.methods[name := types.value]));
      MethodAddedAgrees(r, n, p.(methods := p.methods[name := types.value]), name, types.value);
    }
  }

  // Keep-alive, register and provide change one participant, found through its descriptor.
  lemma HandleConsistent(r: Registry, fd: nat, frame: ControlFrame)
    requires Consistent(r) && Handle(r, fd, frame).Done?
    ensures Consistent(Handle(r, fd, frame).registry)
    ensures Handle(r, fd, frame).registry.sockets == r.sockets
  {
    match frame
    case KeepAlive => ResetConsistent(r, fd);
    case EventRegister(topic, typeId) => RegisterConsistent(r, fd, topic, typeId);
    case MethodProvide(name, types) => ProvideConsistent(r, fd, name, types);
    case _ =>
  }

  // Main result: no interleaving of the three threads breaks the agreement of the copies.
  lemma StepSound(m: Machine, l: Label)
    requires Sound(m) && Enabled(m, l) && Step(m, l).Next?
    ensures Sound(Step(m, l).machine)
  {
    var r := m.registry;
    match l
    case Connect(fd, peer, hello) => AdmitConsistent(r, fd, peer, hello);
    case Tick(order) => AgeConsistent(r, order);
    case Bury => BuryConsistent(r);
    case VisitSlot(Received(frame)) => HandleConsistent(r, r.slots[m.phase.next].fd, frame);
    case _ =>
  }

  lemma {:induction false} RunSound(ms: seq<Machine>, ls: seq<Label>, k: nat)
    requires IsRun(ms, ls) && ms[0] == START && k < |ms|
    ensures Sound(ms[k])
  {
    if k == 0 {
      StartSound();
    } else {
      RunSound(ms, ls, k - 1);
      assert Leads(ms[k - 1], ls[k - 1], ms[k]);
      StepSound(ms[k - 1], ls[k - 1]);
    }
  }

  // The index as a set of (topic, type, owner) facts, and the same facts read off the owners.
  ghost function IndexedTopics(r: Registry): set<(string, uint32, string)> {
    set t | t in r.events :: (t, r.events[t].typeId, r.events[t].publisher)
  }

  ghost function OwnedTopics(r: Registry): set<(string, uint32, string)> {
    set n, t | n in r.participants && t in r.participants[n].topics :: (t, r.participants[n].topics[t], n)
  }

  ghost function IndexedMethods(r: Registry): set<(string, MethodTypes, string)> {
    set m | m in r.methods :: (m, r.methods[m].types, r.methods[m].provider)
  }

  ghost function OwnedMethods(r: Registry): set<(string, MethodTypes, string)> {
    set n, m | n in r.participants && m in r.participants[n].methods :: (m, r.participants[n].methods[m], n)
  }

  // Main result: in every reachable state the global indexes hold exactly the facts the live
  // participants hold, and no topic or method is held by two of them.
  lemma IndexIsDisjointUnion(ms: seq<Machine>, ls: seq<Label>, k: nat)
    requires IsRun(ms, ls) && ms[0] == START && k < |ms|
    ensures IndexedTopics(ms[k].registry) == OwnedTopics(ms[k].registry)
    ensures IndexedMethods(ms[k].registry) == OwnedMethods(ms[k].registry)
    ensures forall a, b :: a in ms[k].registry.participants && b in ms[k].registry.participants && a != b ==>
              && ms[k].registry.participants[a].topics.Keys !! ms[k].registry.participants[b].topics.Keys
              && ms[k].registry.participants[a].methods.Keys !! ms[k].registry.participants[b].methods.Keys
  {
    RunSound(ms, ls, k);
    var r := ms[k].registry;
    forall x | x in IndexedTopics(r)
      ensures x in OwnedTopics(r)
    {
      assert x.2 in r.participants && x.0 in r.participants[x.2].topics;
    }
    forall x | x in OwnedTopics(r)
      ensures x in IndexedTopics(r)
    {
      assert x.0 in r.events && r.events[x.0].publisher == x.2;
    }
    forall x | x in IndexedMethods(r)
      ensures x in OwnedMethods(r)
    {
      assert x.2 in r.participants && x.0 in r.participants[x.2].methods;
    }
    forall x | x in OwnedMethods(r)
      ensures x in IndexedMethods(r)
    {
      assert x.0 in r.methods && r.methods[x.0].provider == x.2;
    }
    forall a, b | a in r.participants && b in r.participants && a != b
      ensures r.participants[a].topics.Keys !! r.participants[b].topics.Keys
      ensures r.participants[a].methods.Keys !! r.participants[b].methods.Keys
    {
      forall t | t in r.participants[a].topics
        ensures t !in r.participants[b].topics
      {
        assert r.events[t].publisher == a;
      }
      forall m | m in r.participants[a].methods
        ensures m !in r.participants[b].methods
      {
        assert r.methods[m].provider == a;
      }
    }
  }
}
