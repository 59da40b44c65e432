// Frames on the wire: an 8-byte header (type, three bytes of padding, length in network byte
// order) followed by the body, sent with writen and received with readn.
module Framing {
  import opened Common
  import opened SocketIO

  const HEADER_SIZE: nat := 8
  const TWO_32: nat := 0x1_0000_0000

  datatype Frame = Frame(kind: byte, data: Bytes)

  // htonl(static_cast<uint32_t>(size)).
  function EncodeLength(size: nat): (b: Bytes)
    ensures |b| == 4
  {
    var low := size % TWO_32;
    var high := low / 0x100;
    var higher := high / 0x100;
    [(higher / 0x100) as byte, (higher % 0x100) as byte, (high % 0x100) as byte, (low % 0x100) as byte]
  }

  function DecodeLength(b: Bytes): nat
    requires |b| == 4
  {
    b[0] as nat * 0x100_0000 + b[1] as nat * 0x1_0000 + b[2] as nat * 0x100 + b[3] as nat
  }

  // The compiler leaves the padding bytes of the header undefined.
  function EncodeHeader(kind: byte, pad: Bytes, size: nat): (b: Bytes)
    requires |pad| == 3
    ensures |b| == HEADER_SIZE
  {
    [kind] + pad + EncodeLength(size)
  }

  function Encode(f: Frame, pad: Bytes): Bytes
    requires |pad| == 3
  {
    EncodeHeader(f.kind, pad, |f.data|) + f.data
  }

  // The first frame of a stream, and what follows it.
  function Decode(stream: Bytes): (r: Option<(Frame, Bytes)>)
    ensures r.Some? ==> |r.value.1| < |stream|
  {
    if |stream| < HEADER_SIZE then None
    else
      var size := DecodeLength(stream[4..HEADER_SIZE]);
      if |stream| < HEADER_SIZE + size then None
      else Some((Frame(stream[0], stream[HEADER_SIZE..HEADER_SIZE + size]), stream[HEADER_SIZE + size..]))
  }

  // What a reader that does not stop at a short body takes it for: as many bytes as announced,
  // starting with those that arrived; and for a short header, anything.
  predicate Completes(stream: Bytes, data: Bytes) {
    |stream| >= HEADER_SIZE ==>
      && |data| == DecodeLength(stream[4..HEADER_SIZE])
      && |stream| - HEADER_SIZE <= |data| && data[..|stream| - HEADER_SIZE] == stream[HEADER_SIZE..]
  }

  lemma LengthRoundTrip(size: nat)
    ensures DecodeLength(EncodeLength(size)) == size % TWO_32
  {
    var low := size % TWO_32;
    var high := low / 0x100;
    var higher := high / 0x100;
    var top := higher / 0x100;
    assert low == high * 0x100 + low % 0x100;
    assert high == higher * 0x100 + high % 0x100;
    assert higher == top * 0x100 + higher % 0x100;
    assert EncodeLength(size) == [top as byte, (higher % 0x100) as byte, (high % 0x100) as byte, (low % 0x100) as byte];
  }

  // Main result: lengths are big-endian.  The first byte of the field counts 2^24s, the last one
  // counts ones.
  lemma LengthIsBigEndian(size: nat)
    requires size < 0x1_0000_0000
    ensures EncodeLength(size)[0] as int == size / 0x100_0000
    ensures EncodeLength(size)[1] as int == size / 0x1_0000 % 0x100
    ensures EncodeLength(size)[2] as int == size / 0x100 % 0x100
    ensures EncodeLength(size)[3] as int == size % 0x100
  {
    var high := size / 0x100;
    var higher := high / 0x100;
    assert high == size / 0x100 && higher == size / 0x1_0000 && higher / 0x100 == size / 0x100_0000;
    assert higher / 0x100 < 0x100;
  }

  lemma HeaderAt(f: Frame, pad: Bytes, rest: Bytes)
    requires |pad| == 3
    ensures var stream := Encode(f, pad) + rest;
      && |stream| == HEADER_SIZE + |f.data| + |rest|
      && stream[0] == f.kind
      && stream[4..HEADER_SIZE] == EncodeLength(|f.data|)
      && stream[HEADER_SIZE..] == f.data + rest
  {
  }

  // The bytes of a frame: its type, three bytes that say nothing, the length, the body.
  lemma FrameBytes(f: Frame, pad: Bytes)
    requires |pad| == 3 && |f.data| < 0x1_0000_0000
    ensures var bytes := Encode(f, pad);
      && |bytes| == 8 + |f.data| && bytes[0] == f.kind && bytes[8..] == f.data
      && bytes[4] as int == |f.data| / 0x100_0000 && bytes[5] as int == |f.data| / 0x1_0000 % 0x100
      && bytes[6] as int == |f.data| / 0x100 % 0x100 && bytes[7] as int == |f.data| % 0x100
  {
    LengthIsBigEndian(|f.data|);
  }

  // Main result: whatever follows it on the stream, a frame decodes to itself exactly if its
  // length fits the 32-bit field.
  lemma FrameRoundTripExact(f: Frame, pad: Bytes, rest: Bytes)
    requires |pad| == 3
    ensures Decode(Encode(f, pad) + rest) == Some((f, rest)) <==> |f.data| < 0x1_0000_0000
  {
    var stream := Encode(f, pad) + rest;
    HeaderAt(f, pad, rest);
    LengthRoundTrip(|f.data|);
    var size := |f.data| % TWO_32;
    assert stream[HEADER_SIZE..HEADER_SIZE + size] == stream[HEADER_SIZE..][..size];
    assert stream[HEADER_SIZE + size..] == stream[HEADER_SIZE..][size..];
    if |f.data| < TWO_32 {
      assert (f.data + rest)[..size] == f.data && (f.data + rest)[size..] == rest;
    } else {
      assert |stream[HEADER_SIZE..HEADER_SIZE + size]| == size < |f.data|;
    }
  }

  // A frame cut short is not a frame.
  lemma CutShortIsIncomplete(f: Frame, pad: Bytes, k: nat)
    requires |pad| == 3 && |f.data| < TWO_32 && k < |Encode(f, pad)|
    ensures Decode(Encode(f, pad)[..k]).None?
    ensures k > 0 ==> Encode(f, pad)[..k][0] == f.kind
  {
    HeaderAt(f, pad, []);
    LengthRoundTrip(|f.data|);
    assert Encode(f, pad) + [] == Encode(f, pad);
    if k >= HEADER_SIZE {
      assert Encode(f, pad)[..k][4..HEADER_SIZE] == Encode(f, pad)[4..HEADER_SIZE];
    }
  }

  /* ---- Lists of frames ---- */

  predicate Framable(fs: seq<Frame>) {
    forall f :: f in fs ==> |f.data| < TWO_32
  }

  function EncodeAll(fs: seq<Frame>, pad: Bytes): Bytes
    requires |pad| == 3
  {
    if fs == [] then [] else Encode(fs[0], pad) + EncodeAll(fs[1..], pad)
  }

  // The frames of a stream, up to the first incomplete one, and the bytes left over.
  function DecodeAll(stream: Bytes): (seq<Frame>, Bytes)
    decreases |stream|
  {
    var first := Decode(stream);
    if first.None? then ([], stream)
    else
      var (fs, left) := DecodeAll(first.value.1);
      ([first.value.0] + fs, left)
  }

  lemma DecodeAllStep(stream: Bytes, f: Frame, rest: Bytes)
    requires Decode(stream) == Some((f, rest))
    ensures DecodeAll(stream) == ([f] + DecodeAll(rest).0, DecodeAll(rest).1)
  {
  }

  lemma {:induction false} StreamRoundTrip(fs: seq<Frame>, pad: Bytes, tail: Bytes)
    requires |pad| == 3 && Framable(fs)
    ensures DecodeAll(EncodeAll(fs, pad) + tail) == (fs + DecodeAll(tail).0, DecodeAll(tail).1)
  {
    hide Decode, Encode, DecodeAll;
    var (more, left) := DecodeAll(tail);
    if fs == [] {
      assert EncodeAll(fs, pad) + tail == tail;
      assert fs + more == more;
    } else {
      var rest := EncodeAll(fs[1..], pad) + tail;
      assert EncodeAll(fs, pad) + tail == Encode(fs[0], pad) + rest;
      FrameRoundTripExact(fs[0], pad, rest);
      DecodeAllStep(EncodeAll(fs, pad) + tail, fs[0], rest);
      StreamRoundTrip(fs[1..], pad, tail);
      assert [fs[0]] + (fs[1..] + more) == fs + more;
    }
  }

  lemma {:induction false} EncodeAllAppend(fs: seq<Frame>, f: Frame, pad: Bytes)
    requires |pad| == 3
    ensures EncodeAll(fs + [f], pad) == EncodeAll(fs, pad) + Encode(f, pad)
  {
    if fs == [] {
      assert [f][1..] == [];
    } else {
      EncodeAllAppend(fs[1..], f, pad);
      assert (fs + [f])[1..] == fs[1..] + [f];
    }
  }

  /* ---- Sending and receiving ---- */

  lemma {:induction false} NoHardWriteError(writePlan: seq<WriteEvent>, n: nat)
    ensures WriteFails !in writePlan && Accepts(0) !in writePlan ==> !WriteFailsWithin(writePlan, n)
    decreases |writePlan|
  {
    if n > 0 && writePlan != [] && WriteFails !in writePlan && Accepts(0) !in writePlan {
      var event := writePlan[0];
      assert event in writePlan;
      NoHardWriteError(writePlan[1..], match event case Accepts(limit) => n - Min(limit, n) case _ => n);
    }
  }

  // Header, then body; -1 from either call is what the callers log.
  method SendFrame(d: Descriptor, f: Frame, pad: Bytes) returns (r: int)
    requires |pad| == 3 && |f.data| < TWO_32
    modifies d`outgoing, d`writePlan
    ensures r >= 0 ==> d.outgoing == old(d.outgoing) + Encode(f, pad)
    ensures r < 0 ==> exists k: nat :: k < |Encode(f, pad)| && d.outgoing == old(d.outgoing) + Encode(f, pad)[..k]
    ensures WriteFails !in old(d.writePlan) && Accepts(0) !in old(d.writePlan) ==>
      r >= 0 && WriteFails !in d.writePlan && Accepts(0) !in d.writePlan
  {
    NoHardWriteError(d.writePlan, HEADER_SIZE);
    ghost var header, frame := EncodeHeader(f.kind, pad, |f.data|), Encode(f, pad);
    r := d.WriteN(EncodeHeader(f.kind, pad, |f.data|));
    if r < 0 {
      assert forall k :: 0 <= k < |header| ==> header[..k] == frame[..k];
      return;
    }
    NoHardWriteError(d.writePlan, |f.data|);
    r := d.WriteN(f.data);
    if r < 0 {
      assert forall k :: 0 <= k < |f.data| ==> header + f.data[..k] == frame[..|header| + k];
    }
  }

  method SendAll(d: Descriptor, fs: seq<Frame>, pad: Bytes) returns (ok: bool)
    requires |pad| == 3 && Framable(fs)
    modifies d`outgoing, d`writePlan
    ensures ok ==> d.outgoing == old(d.outgoing) + EncodeAll(fs, pad)
    ensures WriteFails !in old(d.writePlan) && Accepts(0) !in old(d.writePlan) ==> ok
  {
    for i := 0 to |fs|
      invariant d.outgoing == old(d.outgoing) + EncodeAll(fs[..i], pad)
      invariant WriteFails !in old(d.writePlan) && Accepts(0) !in old(d.writePlan) ==>
        WriteFails !in d.writePlan && Accepts(0) !in d.writePlan
    {
      var r := SendFrame(d, fs[i], pad);
      if r < 0 { return false; }
      EncodeAllAppend(fs[..i], fs[i], pad);
      assert fs[..i + 1] == fs[..i] + [fs[i]];
    }
    assert fs[..|fs|] == fs;
    ok := true;
  }

  lemma {:induction false} NoHardReadError(readPlan: seq<ReadEvent>, available: nat, n: nat)
    ensures ReadFails !in readPlan ==> !ReadFailsWithin(readPlan, available, n)
    decreases |readPlan|
  {
    if n > 0 && readPlan != [] && ReadFails !in readPlan {
      var event := readPlan[0];
      assert event in readPlan;
      var k := match event case Delivers(limit) => Delivered(limit, n, available) case _ => 0;
      NoHardReadError(readPlan[1..], available - k, n - k);
    }
  }

  // The first frame of the stream.  A short header gives none; a short body is only logged, and
  // the rest of the frame is then whatever the buffer held.
  method ReceiveFrame(d: Descriptor) returns (r: Option<Frame>)
    modifies d`incoming, d`readPlan
    ensures ReadFails !in old(d.readPlan) ==>
      && ReadFails !in d.readPlan
      && (r.Some? <==> |old(d.incoming)| >= HEADER_SIZE)
      && (Decode(old(d.incoming)).Some? ==> r.Some? && Decode(old(d.incoming)) == Some((r.value, d.incoming)))
      && (Decode(old(d.incoming)).None? && r.Some? ==>
            d.incoming == [] && r.value.kind == old(d.incoming)[0] && Completes(old(d.incoming), r.value.data))
      && (r.Some? && |r.value.data| >= |old(d.incoming)| - 8 ==>
            r.value.data[..|old(d.incoming)| - 8] == old(d.incoming)[8..])
  {
    var header := new byte[HEADER_SIZE];
    NoHardReadError(d.readPlan, |d.incoming|, HEADER_SIZE);
    var count := d.ReadN(header, HEADER_SIZE);
    if count < HEADER_SIZE { return None; }
    ghost var after := d.incoming;
    var size := DecodeLength(header[4..]);
    assert header[..] == old(d.incoming)[..HEADER_SIZE];
    assert header[4..] == old(d.incoming)[4..HEADER_SIZE];
    var content := new byte[size];
    NoHardReadError(d.readPlan, |d.incoming|, size);
    count := d.ReadN(content, size);
    assert count != -1 ==> content[..count] == after[..count];
    if count == size {
      assert content[..] == after[..size];
      assert after[..size] == old(d.incoming)[HEADER_SIZE..HEADER_SIZE + size];
      assert after[size..] == old(d.incoming)[HEADER_SIZE + size..];
    }
    r := Some(Frame(header[0], content[..]));
  }

  lemma NotAFrame(stream: Bytes)
    ensures Decode(stream).None? ==> DecodeAll(stream) == ([], stream)
    ensures |stream| < HEADER_SIZE ==> Decode(stream).None?
  {
  }

  // What a reader gets from a stream: its frames, and if more than a header is left over one more
  // that was never sent.
  predicate Receives(stream: Bytes, fs: seq<Frame>) {
    var (whole, left) := DecodeAll(stream);
    if |left| < HEADER_SIZE then fs == whole
    else
      && |fs| == |whole| + 1 && fs[..|whole|] == whole
      && fs[|whole|].kind == left[0] && Completes(left, fs[|whole|].data)
  }

  // One frame has been taken from the stream, whole or not.
  lemma ReceivesOneMore(stream: Bytes, f: Frame, rest: Bytes, more: seq<Frame>)
    requires Receives(rest, more)
    requires Decode(stream) == Some((f, rest))
          || (Decode(stream).None? && |stream| >= HEADER_SIZE && rest == []
              && f.kind == stream[0] && Completes(stream, f.data))
    ensures Receives(stream, [f] + more)
  {
    NotAFrame(stream);
    NotAFrame(rest);
    if Decode(stream).Some? {
      DecodeAllStep(stream, f, rest);
      hide Decode, Completes, DecodeAll;
      var (whole, left) := DecodeAll(rest);
      if |left| >= HEADER_SIZE {
        assert ([f] + more)[..|whole| + 1] == [f] + more[..|whole|];
      }
    } else {
      assert more == [];
    }
  }

  // Everything a peer reads until no header is left.
  method ReceiveAll(d: Descriptor) returns (fs: seq<Frame>)
    requires ReadFails !in d.readPlan
    modifies d`incoming, d`readPlan
    ensures Receives(old(d.incoming), fs)
  {
    hide Decode, Completes, DecodeAll;
    fs := [];
    ghost var stream := d.incoming;
    while true
      invariant ReadFails !in d.readPlan && stream == d.incoming
      invariant forall more :: Receives(stream, more) ==> Receives(old(d.incoming), fs + more)
      decreases |d.incoming|
    {
      NotAFrame(stream);
      var r := ReceiveFrame(d);
      if r.None? {
        assert Receives(stream, []) && fs + [] == fs;
        return;
      }
      forall more | Receives(d.incoming, more)
        ensures Receives(stream, [r.value] + more)
      {
        ReceivesOneMore(stream, r.value, d.incoming, more);
      }
      assert forall more :: fs + [r.value] + more == fs + ([r.value] + more);
      fs := fs + [r.value];
      stream := d.incoming;
    }
  }

  // Main result: frames sent with writen under any pattern of interrupts and partial writes, and
  // read back with readn under any pattern of interrupts and short reads, arrive as they were
  // sent, with nothing in between and nothing left over.
  method Transmit(fs: seq<Frame>, pad: Bytes, writePlan: seq<WriteEvent>, readPlan: seq<ReadEvent>)
    returns (received: seq<Frame>)
    requires |pad| == 3 && Framable(fs)
    requires WriteFails !in writePlan && Accepts(0) !in writePlan && ReadFails !in readPlan
    ensures received == fs
  {
    var sender := new Descriptor([], [], writePlan);
    var ok := SendAll(sender, fs, pad);
    assert sender.outgoing == EncodeAll(fs, pad) + [];
    StreamRoundTrip(fs, pad, []);
    var receiver := new Descriptor(sender.outgoing, readPlan, []);
    received := ReceiveAll(receiver);
    assert DecodeAll([]) == ([], []) && fs + [] == fs;
  }
}
