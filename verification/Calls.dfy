// Methods offered to other participants: type-erased callbacks, call requests and replies
// (include/ubus_runtime.hpp, src/ubus_runtime.cpp).
module Calls {
  import opened Common
  import opened Messages

  // MethodInfo: the two types a method is provided with, and its callback on serialized data.
  // `now` stands for anything the callback consults besides its request.
  datatype Method = Method(types: MethodTypes, callback: (nat, Bytes) -> Bytes)

  datatype Request = Request(fn: string, types: MethodTypes, data: Bytes)

  // What the JSON of a call can be: complete, short of one of the four fields, without the
  // caller's name, or not JSON.
  datatype CallBody = Complete(request: Request) | Lacking | Nameless | Unparsable

  datatype Reply = Refused | Returned(data: Bytes)

  // Whether the callback is run.
  predicate Matching(methods: map<string, Method>, request: Request) {
    request.fn in methods && methods[request.fn].types == request.types
  }

  // The reply to a call; none if handling it throws.
  function React(methods: map<string, Method>, body: CallBody, now: nat): Option<Reply> {
    match body
    case Complete(request) =>
      if Matching(methods, request) then Some(Returned(methods[request.fn].callback(now, request.data)))
      else Some(Refused)
    case Lacking => Some(Refused)
    case Nameless => None
    case Unparsable => None
  }

  // What call_method makes of the reply: the data to deserialize, or None for false.
  function Outcome(reply: Option<Reply>): Option<Bytes> {
    match reply
    case Some(Returned(data)) => Some(data)
    case _ => None
  }

  /* ---- Message types ---- */

  // A message class: its id, and how its values are written and read.
  datatype Codec<!T> = Codec(id: uint32, serialize: T -> Bytes, deserialize: Bytes -> T)

  ghost predicate RoundTrips<T(!new)>(codec: Codec<T>) {
    forall x :: codec.deserialize(codec.serialize(x)) == x
  }

  // MethodCallbackHolder: the typed callback behind a type-erased one.
  function Holder<Q, R>(request: Codec<Q>, response: Codec<R>, callback: (nat, Q) -> R): Method {
    Method(MethodTypes(request.id, response.id),
           (now: nat, data: Bytes) => response.serialize(callback(now, request.deserialize(data))))
  }

  // The request that a typed call sends.
  function TypedRequest<Q, R>(fn: string, request: Codec<Q>, response: Codec<R>, value: Q): Request {
    Request(fn, MethodTypes(request.id, response.id), request.serialize(value))
  }

  // The request message has the first id, the response message the second.
  lemma TypeIdsInOrder<Q, R>(fn: string, request: Codec<Q>, response: Codec<R>, callback: (nat, Q) -> R, value: Q)
    ensures Holder(request, response, callback).types.request == request.id
    ensures Holder(request, response, callback).types.response == response.id
    ensures TypedRequest(fn, request, response, value).types == Holder(request, response, callback).types
  {
  }

  // Int64Msg as a message type; the id is computed elsewhere.
  function IntegerCodec(id: uint32): Codec<int> {
    Codec(id, ToString, Atol)
  }

  lemma IntegerCodecRoundTrips(id: uint32)
    ensures RoundTrips(IntegerCodec(id))
  {
    forall x {
      DecimalRoundTrip(x);
    }
  }

  // One call: the caller of a method provided with a typed callback gets an outcome
  // exactly if both type ids agree, and then it is what the callback gives for the request, both
  // carried through their text; with types that can be read back, the callback's own response.
  lemma TypedReplyExact<Q(!new), R(!new)>(
    methods: map<string, Method>, fn: string, now: nat, sent: Codec<Q>, expected: Codec<R>, value: Q,
    taken: Codec<Q>, given: Codec<R>, callback: (nat, Q) -> R)
    requires fn in methods && methods[fn] == Holder(taken, given, callback)
    ensures var outcome := Outcome(React(methods, Complete(TypedRequest(fn, sent, expected, value)), now));
      && (outcome.Some? <==> sent.id == taken.id && expected.id == given.id)
      && (outcome.Some? ==> outcome.value == given.serialize(callback(now, taken.deserialize(sent.serialize(value)))))
      && (outcome.Some? && sent == taken && expected == given && RoundTrips(sent) && RoundTrips(expected) ==>
            expected.deserialize(outcome.value) == callback(now, value))
  {
  }
}
