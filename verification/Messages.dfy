// Int32Msg, Int64Msg and StringMsg (include/message.hpp): decimal text, and back.
module Messages {
  import opened Common
  import opened Framing
  import opened Payload

  const MINUS: byte := 45
  const PLUS: byte := 43

  type int32 = x: int | -0x8000_0000 <= x < 0x8000_0000
  type int64 = x: int | -0x8000_0000_0000_0000 <= x < 0x8000_0000_0000_0000

  predicate IsDigit(c: byte) {
    48 <= c <= 57
  }

  // std::to_string.
  function Digits(n: nat): (s: Bytes)
    ensures s != [] && forall c :: c in s ==> IsDigit(c)
    decreases n
  {
    var last := [(48 + n % 10) as byte];
    if n < 10 then last else Digits(n / 10) + last
  }

  function ToString(n: int): Bytes {
    if n < 0 then [MINUS] + Digits(-n) else Digits(n)
  }

  predicate IsSpace(c: byte) {
    c == 32 || 9 <= c <= 13
  }

  function LeadingDigits(s: Bytes, soFar: nat): nat
    decreases |s|
  {
    if s == [] || !IsDigit(s[0]) then soFar
    else LeadingDigits(s[1..], soFar * 10 + (s[0] as int - 48))
  }

  // atoi and atol: section 7.22.1.2 of ISO/IEC 9899:2011, that is strtol in base ten: white
  // space, an optional sign, then digits up to the first other character.
  function Atol(s: Bytes): int
    decreases |s|
  {
    if s == [] then 0
    else if IsSpace(s[0]) then Atol(s[1..])
    else if s[0] == MINUS then 0 - LeadingDigits(s[1..], 0)
    else if s[0] == PLUS then LeadingDigits(s[1..], 0)
    else LeadingDigits(s, 0)
  }

  // Reading digits continues across a concatenation.
  lemma {:induction false} LeadingDigitsConcat(s: Bytes, t: Bytes, soFar: nat)
    requires forall c :: c in s ==> IsDigit(c)
    ensures LeadingDigits(s + t, soFar) == LeadingDigits(t, LeadingDigits(s, soFar))
    decreases |s|
  {
    if s == [] {
      assert s + t == t;
    } else {
      assert s[0] in s;
      assert (s + t)[1..] == s[1..] + t;
      LeadingDigitsConcat(s[1..], t, soFar * 10 + (s[0] as int - 48));
    }
  }

  lemma {:induction false} DigitsRoundTrip(n: nat)
    ensures LeadingDigits(Digits(n), 0) == n
    decreases n
  {
    var last := [(48 + n % 10) as byte];
    assert last[1..] == [];
    if n >= 10 {
      DigitsRoundTrip(n / 10);
      LeadingDigitsConcat(Digits(n / 10), last, 0);
      assert LeadingDigits(last, n / 10) == LeadingDigits([], n / 10 * 10 + n % 10);
    } else {
      assert LeadingDigits(last, 0) == LeadingDigits([], n);
    }
  }

  // Main result: parsing the decimal text of any integer, of whatever sign, gives it back.
  lemma DecimalRoundTrip(n: int)
    ensures Atol(ToString(n)) == n
  {
    if n < 0 {
      DigitsRoundTrip(-n);
      assert ToString(n)[1..] == Digits(-n);
    } else {
      DigitsRoundTrip(n);
      assert Digits(n)[0] in Digits(n);
    }
  }

  /* ---- The text itself ---- */

  // The number that decimal digits stand for, most significant first.
  function Value(s: Bytes): int {
    if s == [] then 0 else 10 * Value(s[..|s| - 1]) + (s[|s| - 1] as int - 48)
  }

  lemma {:induction false} DigitsText(n: nat)
    ensures Value(Digits(n)) == n
    ensures forall c :: c in Digits(n) ==> 48 <= c <= 57
    ensures Digits(n)[0] == 48 <==> n == 0
    decreases n
  {
    var last := [(48 + n % 10) as byte];
    if n >= 10 {
      DigitsText(n / 10);
      assert Digits(n)[..|Digits(n)| - 1] == Digits(n / 10);
    } else {
      assert last[..0] == [];
    }
  }

  // Main result: an integer is printed as its decimal digits, without a zero in front, after a
  // minus sign exactly if it is negative.
  lemma PrintedText(n: int)
    ensures var text := ToString(n);
      && text != [] && (text[0] == 45 <==> n < 0)
      && var digits := if n < 0 then text[1..] else text;
         && digits != [] && (forall c :: c in digits ==> 48 <= c <= 57)
         && Value(digits) == (if n < 0 then -n else n)
         && (digits[0] == 48 ==> n == 0)
  {
    DigitsText(if n < 0 then -n else n);
    if n < 0 {
      assert ToString(n)[1..] == Digits(-n);
    } else {
      assert Digits(n)[0] in Digits(n);
    }
  }

  lemma {:induction false} DigitsValue(s: Bytes, t: Bytes)
    requires forall c :: c in s ==> 48 <= c <= 57
    requires t == [] || !(48 <= t[0] <= 57)
    ensures Value(s) >= 0 && LeadingDigits(s + t, 0) == Value(s)
    decreases |s|
  {
    if s == [] {
      assert s + t == t;
    } else {
      var front, last := s[..|s| - 1], s[|s| - 1];
      assert last in s && forall c :: c in front ==> c in s;
      DigitsValue(front, []);
      assert front + [] == front && s + t == front + ([last] + t);
      LeadingDigitsConcat(front, [last] + t, 0);
      assert ([last] + t)[1..] == t;
    }
  }

  lemma {:induction false} SkipsSpace(space: Bytes, text: Bytes)
    requires forall c :: c in space ==> c == 32 || 9 <= c <= 13
    ensures Atol(space + text) == Atol(text)
    decreases |space|
  {
    if space == [] {
      assert space + text == text;
    } else {
      assert space[0] in space && forall c :: c in space[1..] ==> c in space;
      SkipsSpace(space[1..], text);
      assert (space + text)[1..] == space[1..] + text;
    }
  }

  lemma ReadsDigits(digits: Bytes, rest: Bytes)
    requires digits != [] && forall c :: c in digits ==> 48 <= c <= 57
    requires rest == [] || !(48 <= rest[0] <= 57)
    ensures Atol(digits + rest) == Value(digits)
    ensures Atol([43] + (digits + rest)) == Value(digits)
    ensures Atol([45] + (digits + rest)) == -Value(digits)
  {
    DigitsValue(digits, rest);
    assert digits[0] in digits;
    assert ([43] + (digits + rest))[1..] == digits + rest;
    assert ([45] + (digits + rest))[1..] == digits + rest;
  }

  // Main result: digits are read as the number they stand for, up to the first other byte; a minus
  // sign in front negates, a plus sign does nothing, and white space before either is skipped.
  lemma ReadText(space: Bytes, digits: Bytes, rest: Bytes)
    requires forall c :: c in space ==> c == 32 || 9 <= c <= 13
    requires digits != [] && forall c :: c in digits ==> 48 <= c <= 57
    requires rest == [] || !(48 <= rest[0] <= 57)
    ensures Atol(space + (digits + rest)) == Value(digits)
    ensures Atol(space + ([43] + (digits + rest))) == Value(digits)
    ensures Atol(space + ([45] + (digits + rest))) == -Value(digits)
  {
    hide Atol;
    ReadsDigits(digits, rest);
    SkipsSpace(space, digits + rest);
    SkipsSpace(space, [43] + (digits + rest));
    SkipsSpace(space, [45] + (digits + rest));
  }

  // Text with no number in it is read as zero.
  lemma ReadNothing(text: Bytes)
    requires text == [] || (text[0] != 32 && !(9 <= text[0] <= 13) && text[0] != 43 && text[0] != 45)
    requires text == [] || !(48 <= text[0] <= 57)
    ensures Atol(text) == 0
  {
  }

  function Power10(k: nat): nat {
    if k == 0 then 1 else 10 * Power10(k - 1)
  }

  lemma {:induction false} DigitsLength(n: nat, k: nat)
    requires k > 0 && n < Power10(k)
    ensures |Digits(n)| <= k
    decreases k
  {
    if n >= 10 {
      DigitsLength(n / 10, k - 1);
    }
  }

  // The text has no NUL and at most twenty characters, so it crosses the wire unharmed.
  lemma DecimalTextIsPlain(n: int64)
    ensures NulsTrail(ToString(n)) && |ToString(n)| <= 20
  {
    var m: int := if n < 0 then 0 - n else n;
    assert Power10(10) == 10_000_000_000;
    assert Power10(13) == 10_000_000_000_000;
    assert Power10(16) == 10_000_000_000_000_000;
    assert Power10(19) == 10_000_000_000_000_000_000;
    DigitsLength(m, 19);
    var text, digits := ToString(n), Digits(m);
    forall i | 0 <= i < |text|
      ensures text[i] != NUL
    {
      if n >= 0 {
        assert digits[i] in digits;
      } else if i > 0 {
        assert digits[i - 1] in digits;
      }
    }
  }

  // Main result: for every 64-bit value, the minimum included, print, copy, frame, decode and
  // parse give the value back.
  lemma IntegerCrossesTheWire(kind: byte, pad: Bytes, n: int64, rest: Bytes)
    requires |pad| == 3
    ensures var received := Decode(Encode(Frame(kind, Copied(ToString(n))), pad) + rest);
      received.Some? && received.value.0.kind == kind && received.value.1 == rest
      && Atol(received.value.0.data) == n
  {
    DecimalTextIsPlain(n);
    PayloadRoundTripExact(kind, pad, ToString(n), rest);
    DecimalRoundTrip(n);
  }

  // The text of an integer, possibly with something after it: what deserialize is meant to read.
  class Int32Msg {
    var data: int32

    constructor (data: int32)
      ensures this.data == data
    {
      this.data := data;
    }

    method Serialize() returns (text: Bytes)
      ensures text == ToString(data)
    {
      text := ToString(data);
    }

    // A number outside the type is undefined behaviour for atoi.
    method Deserialize(text: Bytes)
      requires -0x8000_0000 <= Atol(text) < 0x8000_0000
      modifies this
      ensures data == Atol(text)
    {
      data := Atol(text);
    }
  }

  class Int64Msg {
    var data: int64

    constructor (data: int64)
      ensures this.data == data
    {
      this.data := data;
    }

    method Serialize() returns (text: Bytes)
      ensures text == ToString(data)
    {
      text := ToString(data);
    }

    method Deserialize(text: Bytes)
      requires -0x8000_0000_0000_0000 <= Atol(text) < 0x8000_0000_0000_0000
      modifies this
      ensures data == Atol(text)
    {
      data := Atol(text);
    }
  }

  class StringMsg {
    var data: Bytes

    constructor (data: Bytes)
      ensures this.data == data
    {
      this.data := data;
    }

    method Serialize() returns (text: Bytes)
      ensures text == data
    {
      text := data;
    }

    method Deserialize(text: Bytes)
      modifies this
      ensures data == text
    {
      data := text;
    }
  }

  // The same for a message object: what one object serializes, another reads back.
  method Copy32(from: Int32Msg, to: Int32Msg, kind: byte, pad: Bytes)
    requires |pad| == 3
    modifies to
    ensures to.data == old(from.data)
  {
    var text := from.Serialize();
    IntegerCrossesTheWire(kind, pad, from.data, []);
    var received := Decode(Encode(Frame(kind, Copied(text)), pad) + []);
    to.Deserialize(received.value.0.data);
  }

  method Copy64(from: Int64Msg, to: Int64Msg, kind: byte, pad: Bytes)
    requires |pad| == 3
    modifies to
    ensures to.data == old(from.data)
  {
    var text := from.Serialize();
    IntegerCrossesTheWire(kind, pad, from.data, []);
    var received := Decode(Encode(Frame(kind, Copied(text)), pad) + []);
    to.Deserialize(received.value.0.data);
  }

  // A string object arrives as it was sent exactly if nothing follows a NUL in it.
  method CopyString(from: StringMsg, to: StringMsg, kind: byte, pad: Bytes)
    requires |pad| == 3 && |from.data| < TWO_32
    modifies to
    ensures to.data == Copied(old(from.data))
    ensures to.data == old(from.data) <==> NulsTrail(old(from.data))
  {
    var text := from.Serialize();
    FrameRoundTripExact(Frame(kind, Copied(text)), pad, []);
    CopiedExact(text);
    var received := Decode(Encode(Frame(kind, Copied(text)), pad) + []);
    to.Deserialize(received.value.0.data);
  }
}
