// The runtime of a participant (include/ubus_runtime.hpp, src/ubus_runtime.cpp): its own topics
// and their subscribers, its own subscriptions, and its methods, changed in place.
module Runtime {
  import opened Common
  import opened Calls

  // PubEventInfo: the type a topic is advertised with, and the sockets of its subscribers.
  datatype Publication = Publication(typeId: uint32, clients: map<string, nat>)

  // SubEventInfo; the callback is identified by the topic and the type.
  datatype Subscription = Subscription(typeId: uint32, publisher: string, socket: nat)

  datatype Response = OK | DUPLICATE | INVALID

  // A write of header and body that fails after some bytes, and whether errno is then EPIPE.
  datatype Fault = Fault(taken: nat, epipe: bool)

  // Whether the write to fd stops short; a fault beyond the frame never shows.
  predicate CutShort(frame: Bytes, faults: map<nat, Fault>, fd: nat) {
    fd in faults && faults[fd].taken < |frame|
  }

  // The bytes of a frame that reach the socket.
  function Reaching(frame: Bytes, faults: map<nat, Fault>, fd: nat): Bytes {
    if CutShort(frame, faults, fd) then frame[..faults[fd].taken] else frame
  }

  predicate Serves(clients: map<string, nat>, fd: nat) {
    exists n | n in clients :: clients[n] == fd
  }

  // Each subscriber's stream grows by the frame, or by what was written of it; no other does.
  function FanOut(clients: map<string, nat>, wire: map<nat, Bytes>, frame: Bytes, faults: map<nat, Fault>)
    : map<nat, Bytes>
  {
    map fd | fd in wire ::
      if Serves(clients, fd) then wire[fd] + Reaching(frame, faults, fd) else wire[fd]
  }

  // Whether the write to fd ends with EPIPE.
  predicate Gone(frame: Bytes, faults: map<nat, Fault>, fd: nat) {
    CutShort(frame, faults, fd) && faults[fd].epipe
  }

  function Survivors(clients: map<string, nat>, frame: Bytes, faults: map<nat, Fault>): map<string, nat> {
    map n | n in clients && !Gone(frame, faults, clients[n]) :: clients[n]
  }

  // What the publisher makes of a subscription request.
  function Judge(publications: map<string, Publication>, topic: string, typeId: uint32, name: string): Response {
    if topic !in publications then INVALID
    else if publications[topic].typeId != typeId then INVALID
    else if name in publications[topic].clients then DUPLICATE
    else OK
  }

  // What the JSON of a subscription can be: complete, or short of a member or not JSON at all.
  datatype SubscribeBody = Complete(topic: string, typeId: uint32, name: string) | Unusable

  function JudgeBody(publications: map<string, Publication>, body: SubscribeBody): Response {
    match body
    case Complete(topic, typeId, name) => Judge(publications, topic, typeId, name)
    case Unusable => INVALID
  }

  function Admitted(publications: map<string, Publication>, topic: string, name: string, fd: nat)
    : map<string, Publication>
    requires topic in publications
  {
    publications[topic := publications[topic].(clients := publications[topic].clients[name := fd])]
  }

  ghost predicate Separate(clients: map<string, nat>, wire: map<nat, Bytes>) {
    && (forall n :: n in clients ==> clients[n] in wire)
    && (forall n, n' :: n in clients && n' in clients && clients[n] == clients[n'] ==> n == n')
  }

  lemma FanOutNone(wire: map<nat, Bytes>, frame: Bytes, faults: map<nat, Fault>)
    ensures FanOut(map[], wire, frame, faults) == wire
  {
  }

  // One more subscriber served, on a socket of its own.
  lemma FanOutNext(clients: map<string, nat>, wire: map<nat, Bytes>, frame: Bytes, faults: map<nat, Fault>,
                   rest: set<string>, n: string)
    requires Separate(clients, wire) && n in rest && n in clients
    ensures var served := FanOut(clients - rest, wire, frame, faults);
      && clients[n] in served
      && FanOut(clients - (rest - {n}), wire, frame, faults)
         == served[clients[n] := served[clients[n]] + Reaching(frame, faults, clients[n])]
  {
    var fd, served, next := clients[n], FanOut(clients - rest, wire, frame, faults), clients - (rest - {n});
    assert next[n] == fd;
    forall other | other in wire && other != fd
      ensures FanOut(next, wire, frame, faults)[other] == served[other]
    {
      if Serves(next, other) {
        var m :| m in next && next[m] == other;
        assert (clients - rest)[m] == other;
      }
      if Serves(clients - rest, other) {
        var m :| m in clients - rest && (clients - rest)[m] == other;
        assert next[m] == other;
      }
    }
    assert FanOut(next, wire, frame, faults).Keys == served.Keys;
  }

  class UBusRuntime {
    var publications: map<string, Publication>
    var subscriptions: map<string, Subscription>
    var waiting: seq<string>   // new subscriptions that the event thread has not seen
    var methods: map<string, Method>
    var wire: map<nat, Bytes>  // what has been written to each connected socket

    // Every subscriber has its own socket.
    ghost predicate Valid()
      reads this
    {
      forall t :: t in publications ==> Separate(publications[t].clients, wire)
    }

    constructor ()
      ensures Valid() && publications == map[] && subscriptions == map[] && waiting == []
      ensures methods == map[] && wire == map[]
    {
      publications, subscriptions, waiting, methods, wire := map[], map[], [], map[], map[];
    }

    // The part of advertise_event that follows an OK from the master: any earlier entry, and with
    // it its subscribers, is replaced.
    method Advertised(topic: string, typeId: uint32)
      requires Valid()
      modifies `publications
      ensures Valid() && publications == old(publications)[topic := Publication(typeId, map[])]
    {
      publications := publications[topic := Publication(typeId, map[])];
    }

    // The subscribe handler, on a connection just accepted.
    method HandleSubscribe(body: SubscribeBody, fd: nat) returns (response: Response)
      requires Valid() && fd !in wire
      modifies `publications, `wire
      ensures Valid() && wire == old(wire)[fd := []]
      ensures response == JudgeBody(old(publications), body)
      // OK for a new name on an advertised topic of that type, whoever else subscribes to it;
      // DUPLICATE for a name that does already; INVALID for everything else.
      ensures response == OK <==>
        && body.Complete? && body.topic in old(publications)
        && old(publications)[body.topic].typeId == body.typeId
        && body.name !in old(publications)[body.topic].clients
      ensures response == DUPLICATE <==>
        && body.Complete? && body.topic in old(publications)
        && old(publications)[body.topic].typeId == body.typeId
        && body.name in old(publications)[body.topic].clients
      ensures response == OK ==>
        var before := old(publications)[body.topic];
        publications == old(publications)[body.topic := before.(clients := before.clients[body.name := fd])]
      ensures response != OK ==> publications == old(publications)
    {
      wire := wire[fd := []];
      match body {
        case Unusable =>
          response := INVALID;
        case Complete(topic, typeId, name) =>
          if topic !in publications {
            response := INVALID;
          } else if publications[topic].typeId != typeId {
            response := INVALID;
          } else if name in publications[topic].clients {
            response := DUPLICATE;
          } else {
            var info := publications[topic];
            publications := publications[topic := info.(clients := info.clients[name := fd])];
            response := OK;
          }
      }
    }

    // The part of subscribe_event that follows an OK from the publisher.
    method Subscribed(topic: string, info: Subscription)
      modifies `subscriptions, `waiting
      ensures subscriptions == old(subscriptions)[topic := info]
      ensures waiting == old(waiting) + [topic]
    {
      subscriptions := subscriptions[topic := info];
      waiting := waiting + [topic];
    }

    // The part of provide_method that follows an OK from the master.
    method Provided(fn: string, info: Method)
      modifies `methods
      ensures methods == old(methods)[fn := info]
    {
      methods := methods[fn := info];
    }

    // The method call handler.
    method HandleCall(body: CallBody, now: nat) returns (reply: Option<Reply>)
      ensures reply == React(methods, body, now)
      // The callback's output for a method of both types; a refusal for any other complete body
      // and for one that lacks a field; silence when handling it throws.
      ensures reply.Some? && reply.value.Returned? <==>
        && body.Complete? && body.request.fn in methods
        && methods[body.request.fn].types == body.request.types
      ensures reply.Some? && reply.value.Returned? ==>
        reply.value.data == methods[body.request.fn].callback(now, body.request.data)
      ensures reply == None <==> body.Nameless? || body.Unparsable?
    {
      match body
      case Nameless => reply := None;
      case Unparsable => reply := None;
      case Lacking => reply := Some(Refused);
      case Complete(request) =>
        if request.fn !in methods {
          reply := Some(Refused);
        } else if methods[request.fn].types.request != request.types.request
            || methods[request.fn].types.response != request.types.response {
          reply := Some(Refused);
        } else {
          var data := methods[request.fn].callback(now, request.data);
          reply := Some(Returned(data));
        }
    }

    // publish_event: send to every subscriber in some order, collecting those whose socket is
    // closed, then erase these.
    method PublishEvent(topic: string, typeId: uint32, frame: Bytes, faults: map<nat, Fault>) returns (ok: bool)
      requires Valid()
      modifies `publications, `wire
      ensures Valid()
      ensures ok <==> topic in old(publications) && old(publications)[topic].typeId == typeId
      ensures !ok ==> publications == old(publications) && wire == old(wire)
      ensures ok ==>
        var clients := old(publications)[topic].clients;
        && wire == FanOut(clients, old(wire), frame, faults)
        && publications == old(publications)[topic := Publication(typeId, Survivors(clients, frame, faults))]
      // A subscriber goes exactly if its write stopped short with EPIPE; everybody has received one
      // more copy of the same frame, or the part before the fault; nobody else has received any.
      ensures ok ==>
        var clients, left := old(publications)[topic].clients, publications[topic].clients;
        && (forall n :: n in left <==>
              n in clients && !(clients[n] in faults && faults[clients[n]].taken < |frame| && faults[clients[n]].epipe))
        && (forall n :: n in left ==> left[n] == clients[n])
        && (forall n :: n in clients ==>
              wire[clients[n]] == old(wire)[clients[n]] +
                if clients[n] in faults && faults[clients[n]].taken < |frame| then frame[..faults[clients[n]].taken]
                else frame)
        && (forall fd :: fd in old(wire) && (forall n :: n in clients ==> clients[n] != fd) ==>
              fd in wire && wire[fd] == old(wire)[fd])
    {
      if topic !in publications { return false; }
      if typeId != publications[topic].typeId { return false; }
      var clients := publications[topic].clients;
      if |clients| == 0 {
        assert clients == map[];
        assert wire == FanOut(clients, wire, frame, faults);
        assert Survivors(clients, frame, faults) == map[];
        return true;
      }
      var dead := SendToAll(clients, frame, faults);
      var left := Erase(clients, dead);
      assert left == Survivors(clients, frame, faults);
      publications := publications[topic := publications[topic].(clients := left)];
      ok := true;
    }

    method SendToAll(clients: map<string, nat>, frame: Bytes, faults: map<nat, Fault>) returns (dead: seq<string>)
      requires Separate(clients, wire)
      modifies `wire
      ensures wire == FanOut(clients, old(wire), frame, faults)
      ensures forall n :: n in dead <==> n in clients && Gone(frame, faults, clients[n])
    {
      hide FanOut, Gone;
      dead := [];
      var rest := clients.Keys;
      FanOutNone(wire, frame, faults);
      assert clients - rest == map[];
      while rest != {}
        invariant rest <= clients.Keys
        invariant wire == FanOut(clients - rest, old(wire), frame, faults)
        invariant forall n :: n in dead <==> n in clients && n !in rest && Gone(frame, faults, clients[n])
        decreases rest
      {
        var n :| n in rest;
        FanOutNext(clients, old(wire), frame, faults, rest, n);
        var broken := Send(clients[n], frame, faults);
        if broken {
          dead := dead + [n];
        }
        rest := rest - {n};
      }
      assert clients - rest == clients;
    }

    // Header and body to one subscriber; true if the socket turns out to be closed.
    method Send(fd: nat, frame: Bytes, faults: map<nat, Fault>) returns (broken: bool)
      requires fd in wire
      modifies `wire
      ensures wire == old(wire)[fd := old(wire)[fd] + Reaching(frame, faults, fd)]
      ensures broken <==> Gone(frame, faults, fd)
    {
      if CutShort(frame, faults, fd) {
        wire := wire[fd := wire[fd] + frame[..faults[fd].taken]];
        broken := faults[fd].epipe;
      } else {
        wire := wire[fd := wire[fd] + frame];
        broken := false;
      }
    }

    method Erase(clients: map<string, nat>, dead: seq<string>) returns (left: map<string, nat>)
      ensures left == map n | n in clients && n !in dead :: clients[n]
    {
      left := clients;
      for i := 0 to |dead|
        invariant left == map n | n in clients && n !in dead[..i] :: clients[n]
      {
        assert dead[..i + 1] == dead[..i] + [dead[i]];
        left := left - {dead[i]};
      }
      assert dead[..|dead|] == dead;
    }

    // The dispatch in process_event_message: the subscription whose socket an event came from.
    method Dispatch(fd: nat) returns (topic: Option<string>)
      ensures topic.Some? ==> topic.value in subscriptions && subscriptions[topic.value].socket == fd
      ensures topic.None? ==> forall t :: t in subscriptions ==> subscriptions[t].socket != fd
    {
      var rest := subscriptions.Keys;
      while rest != {}
        invariant rest <= subscriptions.Keys
        invariant forall t :: t in subscriptions && t !in rest ==> subscriptions[t].socket != fd
        decreases rest
      {
        var t :| t in rest;
        if subscriptions[t].socket == fd { return Some(t); }
        rest := rest - {t};
      }
      topic := None;
    }
  }

  // After a publication, a subscriber is still registered exactly if its socket was
  // not found closed; and every subscriber that was written to in full has received exactly one
  // more copy of the frame, the same for all.
  lemma FanOutExact(clients: map<string, nat>, wire: map<nat, Bytes>, frame: Bytes, faults: map<nat, Fault>, n: string)
    requires Separate(clients, wire) && n in clients
    ensures n in Survivors(clients, frame, faults) <==> !Gone(frame, faults, clients[n])
    ensures clients[n] in FanOut(clients, wire, frame, faults)
    ensures !CutShort(frame, faults, clients[n]) ==>
      && FanOut(clients, wire, frame, faults)[clients[n]] == wire[clients[n]] + frame
      && n in Survivors(clients, frame, faults)
    ensures forall fd :: fd in wire && !Serves(clients, fd) ==> FanOut(clients, wire, frame, faults)[fd] == wire[fd]
  {
  }
}
