// Event payloads: the strncpy from the serialized string into the frame, and what the receiver
// makes of it.
module Payload {
  import opened Common
  import opened Framing

  const NUL: byte := 0

  // strncpy(dst, src.c_str(), n): section 7.24.2.4 of ISO/IEC 9899:2011.  Copying stops at the
  // first NUL, of which c_str() puts one after the string, and the rest of dst is filled with NUL.
  function Strncpy(src: Bytes, n: nat): (dst: Bytes)
    ensures |dst| == n
  {
    if n == 0 then []
    else if src == [] || src[0] == NUL then seq(n, i => NUL)
    else [src[0]] + Strncpy(src[1..], n - 1)
  }

  // How every sender fills its frame: as many bytes as the string has.
  function Copied(s: Bytes): Bytes {
    Strncpy(s, |s|)
  }

  function FirstNul(s: Bytes): (z: nat)
    ensures z <= |s|
    ensures z < |s| ==> s[z] == NUL
    ensures forall i :: 0 <= i < z ==> s[i] != NUL
  {
    if s == [] || s[0] == NUL then 0
    else
      var z := FirstNul(s[1..]);
      assert forall i :: 0 < i < z + 1 ==> s[i] == s[1..][i - 1];
      z + 1
  }

  // Nothing but NULs follows a NUL.
  predicate NulsTrail(s: Bytes) {
    forall i, j :: 0 <= i < j < |s| && s[i] == NUL ==> s[j] == NUL
  }

  // Main result: the copy is the part before the first NUL, padded with NULs to the same length.
  lemma {:induction false} CopiedShape(s: Bytes)
    ensures Copied(s) == s[..FirstNul(s)] + seq(|s| - FirstNul(s), i => NUL)
  {
    if s != [] && s[0] != NUL {
      CopiedShape(s[1..]);
      assert s[..FirstNul(s)] == [s[0]] + s[1..][..FirstNul(s[1..])];
    }
  }

  lemma CopiedExact(s: Bytes)
    ensures Copied(s) == s <==> NulsTrail(s)
  {
    var z := FirstNul(s);
    CopiedShape(s);
    assert forall i :: z <= i < |s| ==> Copied(s)[i] == NUL;
    assert forall i :: 0 <= i < z ==> Copied(s)[i] == s[i];
    if NulsTrail(s) {
      assert forall i :: z <= i < |s| ==> s[i] == NUL;
    }
    if Copied(s) == s {
      forall i, j | 0 <= i < j < |s| && s[i] == NUL
        ensures s[j] == NUL
      {
        assert z <= i && Copied(s)[j] == NUL;
      }
    }
  }

  // Main result: an event payload survives the copy, the framing and the decoding exactly if no
  // other byte follows a NUL and its length fits the header.
  lemma PayloadRoundTripExact(kind: byte, pad: Bytes, s: Bytes, rest: Bytes)
    requires |pad| == 3
    ensures Decode(Encode(Frame(kind, Copied(s)), pad) + rest) == Some((Frame(kind, s), rest))
       <==> NulsTrail(s) && |s| < TWO_32
  {
    var f := Frame(kind, Copied(s));
    var stream := Encode(f, pad) + rest;
    CopiedExact(s);
    FrameRoundTripExact(f, pad, rest);
    if |s| >= TWO_32 {
      HeaderAt(f, pad, rest);
      LengthRoundTrip(|s|);
      assert Decode(stream).Some? ==> |Decode(stream).value.0.data| == |s| % TWO_32 < |s|;
    }
  }

  // The byte that ends a string is zero: what precedes the first zero is copied, and the rest is
  // zeros.
  lemma {:induction false} ZeroEnds(a: Bytes, b: Bytes, n: nat)
    requires 0 !in a && n <= |a| + |b|
    ensures Strncpy(a, n) == if n <= |a| then a[..n] else a + seq(n - |a|, i => 0)
    ensures b != [] && b[0] == 0 ==> Strncpy(a + b, n) == Strncpy(a, n)
  {
    if a == [] {
      assert a + b == b;
    } else if n > 0 {
      assert a[0] in a && (a + b)[1..] == a[1..] + b;
      ZeroEnds(a[1..], b, n - 1);
    }
  }
}
