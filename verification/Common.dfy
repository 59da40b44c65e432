// Types shared by the models of the bus master, the runtime and the wire.
module Common {

  datatype Option<+T> = None | Some(value: T) {
    function GetOr(other: T): T {
      match this
      case None => other
      case Some(value) => value
    }
  }

  // The fixed-width integers of the source that matter to its behaviour.
  type uint32 = x: int | 0 <= x < 0x1_0000_0000
  type uint8 = x: int | 0 <= x < 0x100

  newtype byte = x: int | 0 <= x < 256

  // A std::string whose contents travel over a socket.
  type Bytes = seq<byte>

  // Where a participant can be reached.
  datatype Address = Address(ip: string, port: uint32)

  // What the master knows about how to reach a participant: the peer address of its control
  // connection and the address on which its own listening socket accepts connections.
  datatype Contact = Contact(peer: Address, listening: Address)

  // The two type ids a method is registered with.
  datatype MethodTypes = MethodTypes(request: uint32, response: uint32)

  predicate Distinct<T(==)>(s: seq<T>) {
    forall i, j :: 0 <= i < j < |s| ==> s[i] != s[j]
  }

  // A sequence that visits every element of a set once: one possible order of iteration over
  // an unordered container.
  ghost predicate Enumerates<T(!new)>(order: seq<T>, s: set<T>) {
    Distinct(order) && forall x :: x in order <==> x in s
  }

  lemma SmallerSet<T>(a: set<T>, b: set<T>, x: T)
    requires a <= b && x in b && x !in a
    ensures |a| < |b|
  {
    assert b == (a + {x}) + (b - (a + {x}));
  }
}
