// readn and writen (include/helpers.hpp) over a descriptor whose read and write calls may be
// interrupted, cut short or fail, in any finite pattern.
module SocketIO {
  import opened Common

  // What the next system call does; once the pattern is used up, calls succeed in full.  A read
  // delivers at least one byte unless the stream is at its end; a write may accept none.
  datatype ReadEvent = ReadInterrupted | ReadFails | Delivers(limit: nat)
  datatype WriteEvent = WriteInterrupted | WriteFails | Accepts(limit: nat)

  datatype Errno = EINTR | OTHER

  function Min(a: nat, b: nat): nat {
    if a < b then a else b
  }

  function Delivered(limit: nat, n: nat, available: nat): nat {
    Min(Min(if limit == 0 then 1 else limit, n), available)
  }

  // Whether a failing call is reached before n bytes are there: independent of the bytes.
  predicate ReadFailsWithin(readPlan: seq<ReadEvent>, available: nat, n: nat)
    decreases |readPlan|
  {
    if n == 0 || readPlan == [] then false
    else match readPlan[0]
      case ReadInterrupted => ReadFailsWithin(readPlan[1..], available, n)
      case ReadFails => true
      case Delivers(limit) =>
        var k := Delivered(limit, n, available);
        k > 0 && ReadFailsWithin(readPlan[1..], available - k, n - k)
  }

  lemma ReadFailsNot(readPlan: seq<ReadEvent>, available: nat, n: nat)
    requires n == 0
    ensures !ReadFailsWithin(readPlan, available, n)
  {
  }

  // The two predicates, one call further.
  lemma ReadFailsUnfold(readPlan: seq<ReadEvent>, available: nat, n: nat)
    requires n > 0
    ensures readPlan == [] ==> !ReadFailsWithin(readPlan, available, n)
    ensures readPlan != [] && readPlan[0].ReadInterrupted? ==>
      (ReadFailsWithin(readPlan, available, n) <==> ReadFailsWithin(readPlan[1..], available, n))
    ensures readPlan != [] && readPlan[0].ReadFails? ==> ReadFailsWithin(readPlan, available, n)
    ensures readPlan != [] && readPlan[0].Delivers? ==>
      var k := Delivered(readPlan[0].limit, n, available);
      ReadFailsWithin(readPlan, available, n) <==> k > 0 && ReadFailsWithin(readPlan[1..], available - k, n - k)
    ensures !ReadFailsWithin([], available, n) && !ReadFailsWithin(readPlan, available, 0)
    ensures !ReadFailsWithin([], available - Delivered(n, n, available), n - Delivered(n, n, available))
  {
  }

  predicate WriteFailsWithin(writePlan: seq<WriteEvent>, n: nat)
    decreases |writePlan|
  {
    if n == 0 || writePlan == [] then false
    else match writePlan[0]
      case WriteInterrupted => WriteFailsWithin(writePlan[1..], n)
      case WriteFails => true
      case Accepts(limit) => limit == 0 || WriteFailsWithin(writePlan[1..], n - Min(limit, n))
  }

  // Bytes of the stream that follow those already stored replace the next ones of the buffer.
  lemma Splice(stream: Bytes, was: Bytes, got: nat, k: nat, prior: Bytes, now: Bytes)
    requires got + k <= |was| && got + k <= |stream|
    requires prior == stream[..got] + was[got..]
    requires now == prior[..got] + stream[got..][..k] + prior[got + k..]
    ensures now == stream[..got + k] + was[got + k..]
    ensures stream[got..][k..] == stream[got + k..]
  {
  }

  // The first got bytes of the stream have moved from the socket to the buffer.
  ghost predicate Progress(stream: Bytes, was: Bytes, got: nat, incoming: Bytes, buf: Bytes) {
    got <= |stream| && got <= |was| && incoming == stream[got..] && buf == stream[..got] + was[got..]
  }

  lemma NoProgress(stream: Bytes, was: Bytes)
    ensures Progress(stream, was, 0, stream, was)
  {
  }

  lemma ProgressIs(stream: Bytes, was: Bytes, got: nat, incoming: Bytes, buf: Bytes)
    requires Progress(stream, was, got, incoming, buf)
    ensures got <= |stream| && got <= |was| && incoming == stream[got..] && buf == stream[..got] + was[got..]
  {
  }

  class Descriptor {
    var incoming: Bytes  // sent by the peer and not yet read; then end of file
    var outgoing: Bytes  // written so far
    var readPlan: seq<ReadEvent>
    var writePlan: seq<WriteEvent>

    constructor (incoming: Bytes, readPlan: seq<ReadEvent>, writePlan: seq<WriteEvent>)
      ensures this.incoming == incoming && outgoing == []
      ensures this.readPlan == readPlan && this.writePlan == writePlan
    {
      this.incoming, outgoing, this.readPlan, this.writePlan := incoming, [], readPlan, writePlan;
    }

    // read(2): the number of bytes stored at buf[at..], or -1 and errno.
    method Read(buf: array<byte>, at: nat, n: nat) returns (count: int, errno: Errno)
      requires 0 < n && at + n <= buf.Length
      modifies `incoming, `readPlan, buf
      ensures readPlan == if old(readPlan) == [] then [] else old(readPlan)[1..]
      ensures count == match (if old(readPlan) == [] then Delivers(n) else old(readPlan)[0])
                       case Delivers(limit) => Delivered(limit, n, |old(incoming)|)
                       case _ => -1
      ensures count < 0 ==> (errno == EINTR <==> old(readPlan) != [] && old(readPlan)[0].ReadInterrupted?)
      ensures count < 0 ==> incoming == old(incoming) && buf[..] == old(buf[..])
      ensures count >= 0 ==>
        && count <= n && count <= |old(incoming)|
        && incoming == old(incoming)[count..]
        && buf[..] == old(buf[..])[..at] + old(incoming)[..count] + old(buf[..])[at + count..]
    {
      var event := if readPlan == [] then Delivers(n) else readPlan[0];
      if readPlan != [] { readPlan := readPlan[1..]; }
      errno := OTHER;
      match event {
        case ReadInterrupted => return -1, EINTR;
        case ReadFails => return -1, OTHER;
        case Delivers(limit) =>
          count := Delivered(limit, n, |incoming|);
          var chunk := incoming[..count];
          forall i | 0 <= i < count {
            buf[at + i] := chunk[i];
          }
          incoming := incoming[count..];
      }
    }

    // write(2): the number of bytes taken from data, or -1 and errno.
    method Write(data: Bytes) returns (count: int, errno: Errno)
      requires data != []
      modifies `outgoing, `writePlan
      ensures writePlan == if old(writePlan) == [] then [] else old(writePlan)[1..]
      ensures count == match (if old(writePlan) == [] then Accepts(|data|) else old(writePlan)[0])
                       case Accepts(limit) => Min(limit, |data|)
                       case _ => -1
      ensures count < 0 ==> (errno == EINTR <==> old(writePlan) != [] && old(writePlan)[0].WriteInterrupted?)
      ensures -1 <= count <= |data|
      ensures outgoing == old(outgoing) + if count < 0 then [] else data[..count]
    {
      var event := if writePlan == [] then Accepts(|data|) else writePlan[0];
      if writePlan != [] { writePlan := writePlan[1..]; }
      errno := OTHER;
      match event {
        case WriteInterrupted => return -1, EINTR;
        case WriteFails => return -1, OTHER;
        case Accepts(limit) =>
          count := Min(limit, |data|);
          outgoing := outgoing + data[..count];
      }
    }

    // A read in the middle of readn: where it leaves the stream, the buffer and the prospects.
    method ReadMore(buf: array<byte>, at: nat, n: nat, ghost stream: Bytes, ghost was: Bytes)
      returns (count: int, errno: Errno)
      requires 0 < n && at + n <= buf.Length == |was| && at <= |stream|
      requires Progress(stream, was, at, incoming, buf[..])
      modifies `incoming, `readPlan, buf
      ensures -1 <= count <= n
      ensures count >= 0 ==> at + count <= |stream|
      ensures Progress(stream, was, at + if count < 0 then 0 else count, incoming, buf[..])
      ensures count == 0 ==> at == |stream|
      ensures ReadFailsWithin(old(readPlan), |stream| - at, n)
         <==> if count > 0 then ReadFailsWithin(readPlan, |incoming|, n - count)
              else if count < 0 && errno == EINTR then ReadFailsWithin(readPlan, |incoming|, n)
              else count < 0
      ensures |readPlan| <= |old(readPlan)| && (count < 0 ==> |readPlan| < |old(readPlan)|)
      ensures ReadFails !in old(readPlan) ==> ReadFails !in readPlan
    {
      hide ReadFailsWithin;
      ReadFailsUnfold(readPlan, |incoming|, n);
      count, errno := Read(buf, at, n);
      if count > 0 {
        Splice(stream, was, at, count, old(buf[..]), buf[..]);
      }
    }

    // The next min(n, bytes before end of file) bytes, in order; -1 exactly if a call fails first.
    method ReadN(buf: array<byte>, n: nat) returns (r: int)
      requires n <= buf.Length
      modifies `incoming, `readPlan, buf
      ensures r == -1 <==> ReadFailsWithin(old(readPlan), |old(incoming)|, n)
      ensures r != -1 ==>
        && r == Min(n, |old(incoming)|)
        && buf[..] == old(incoming)[..r] + old(buf[..])[r..]
        && incoming == old(incoming)[r..]
      ensures ReadFails !in old(readPlan) ==> ReadFails !in readPlan
    {
      var nleft := n;
      ghost var got := 0;
      ghost var stream, was := incoming, buf[..];
      hide ReadFailsWithin, Progress;
      assert Progress(stream, was, 0, incoming, buf[..]) by { NoProgress(stream, was); }
      while nleft > 0
        invariant 0 <= nleft <= n && got == n - nleft && got <= |stream|
        invariant Progress(stream, was, got, incoming, buf[..])
        invariant ReadFails !in old(readPlan) ==> ReadFails !in readPlan
        invariant ReadFailsWithin(readPlan, |incoming|, nleft) <==> ReadFailsWithin(old(readPlan), |stream|, n)
        decreases nleft, |readPlan|
      {
        var nread, errno := ReadMore(buf, n - nleft, nleft, stream, was);
        if nread < 0 {
          if errno == EINTR {
            nread := 0;
          } else {
            return -1;
          }
        } else if nread == 0 {
          break;
        }
        nleft := nleft - nread;
        got := got + nread;
      }
      if nleft == 0 { ReadFailsNot(readPlan, |incoming|, 0); }
      ProgressIs(stream, was, got, incoming, buf[..]);
      return n - nleft;
    }

    // Appends exactly the buffer; -1 exactly if a call fails or takes nothing first, and then
    // only a proper prefix has been appended.
    method WriteN(data: Bytes) returns (r: int)
      modifies `outgoing, `writePlan
      ensures r == -1 <==> WriteFailsWithin(old(writePlan), |data|)
      ensures r != -1 ==> r == |data| && outgoing == old(outgoing) + data
      ensures r == -1 ==> exists k: nat :: k < |data| && outgoing == old(outgoing) + data[..k]
      ensures WriteFails !in old(writePlan) ==> WriteFails !in writePlan
      ensures Accepts(0) !in old(writePlan) ==> Accepts(0) !in writePlan
    {
      var nleft := |data|;
      while nleft > 0
        invariant 0 <= nleft <= |data|
        invariant outgoing == old(outgoing) + data[..|data| - nleft]
        invariant WriteFails !in old(writePlan) ==> WriteFails !in writePlan
        invariant Accepts(0) !in old(writePlan) ==> Accepts(0) !in writePlan
        invariant WriteFailsWithin(writePlan, nleft) <==> WriteFailsWithin(old(writePlan), |data|)
        decreases nleft, |writePlan|
      {
        var nwritten, errno := Write(data[|data| - nleft..]);
        if nwritten <= 0 {
          if nwritten < 0 && errno == EINTR {
            nwritten := 0;
          } else {
            return -1;
          }
        }
        nleft := nleft - nwritten;
      }
      return |data|;
    }
  }
}
