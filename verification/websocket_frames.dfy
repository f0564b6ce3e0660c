/**
 The WebSocket frames of the DevTools client (RFC 6455, sections 5.2 to 5.5):
 masked frames are written in the shortest length form, and frames are read
 byte by byte from a socket that may deliver any chunking.
 */
module WebSocketFrames {
  import opened Wrappers

  type byte = b: int | 0 <= b < 256

  datatype Frame = Frame(final: bool, opcode: byte, payload: seq<byte>)

  /** The three length forms: 7 bits, 16 bits and 64 bits. */
  datatype Form = Short | Medium | Long

  const MASK: seq<byte> := [0x5a, 0x17, 0xc3, 0xe1]
  const MAX_16 := 0x1_0000
  const MAX_64 := 0x1_0000_0000_0000_0000

  // ---------------------------------------------------------------------------
  // Bits and bytes
  // ---------------------------------------------------------------------------

  /** Exclusive or of the lowest `bits` bits. */
  function XorBits(a: nat, b: nat, bits: nat): (r: nat)
    ensures r < Pow2(bits)
  {
    if bits == 0 then 0 else (if a % 2 == b % 2 then 0 else 1) + 2 * XorBits(a / 2, b / 2, bits - 1)
  }

  function Pow2(n: nat): nat
  {
    if n == 0 then 1 else 2 * Pow2(n - 1)
  }

  lemma EightBits()
    ensures Pow2(8) == 256
  {}

  function Xor(a: byte, b: byte): byte
  {
    EightBits();
    XorBits(a, b, 8)
  }

  /** Bit `k` of a number, the lowest first. */
  function Bit(n: nat, k: nat): nat
  {
    if k == 0 then n % 2 else Bit(n / 2, k - 1)
  }

  /** A bit of the exclusive or is set exactly when the two numbers differ there. */
  lemma {:induction false} XorIsBitwise(a: nat, m: nat, bits: nat, k: nat)
    requires k < bits
    ensures Bit(XorBits(a, m, bits), k) == if Bit(a, k) != Bit(m, k) then 1 else 0
  {
    var low := if a % 2 == m % 2 then 0 else 1;
    Halves(XorBits(a, m, bits), low, XorBits(a / 2, m / 2, bits - 1));
    if k > 0 { XorIsBitwise(a / 2, m / 2, bits - 1, k - 1); }
  }

  lemma Halves(x: nat, low: nat, high: nat)
    requires x == low + 2 * high && low < 2
    ensures x % 2 == low && x / 2 == high
  {}

  lemma {:induction false} XorBitsTwice(a: nat, m: nat, bits: nat)
    requires a < Pow2(bits)
    ensures XorBits(XorBits(a, m, bits), m, bits) == a
  {
    if bits > 0 {
      XorBitsTwice(a / 2, m / 2, bits - 1);
      Halves(XorBits(a, m, bits), if a % 2 == m % 2 then 0 else 1, XorBits(a / 2, m / 2, bits - 1));
    }
  }

  lemma XorTwice(a: byte, m: byte)
    ensures Xor(Xor(a, m), m) == a
  {
    EightBits();
    XorBitsTwice(a, m, 8);
  }

  function Masked(payload: seq<byte>, mask: seq<byte>): (m: seq<byte>)
    requires |mask| == 4
    ensures |m| == |payload|
  {
    seq(|payload|, i requires 0 <= i < |payload| => Xor(payload[i], mask[i % 4]))
  }

  /** Section 5.3: byte `i` is combined with byte `i` modulo 4 of the key, bit by bit. */
  lemma MaskedIsBitwise(payload: seq<byte>, mask: seq<byte>, i: nat, k: nat)
    requires |mask| == 4 && i < |payload| && k < 8
    ensures Bit(Masked(payload, mask)[i], k) == 1 <==> Bit(payload[i], k) != Bit(mask[i % 4], k)
  {
    XorIsBitwise(payload[i], mask[i % 4], 8, k);
  }

  /** Masking is its own inverse. */
  lemma MaskedTwice(payload: seq<byte>, mask: seq<byte>)
    requires |mask| == 4
    ensures Masked(Masked(payload, mask), mask) == payload
  {
    forall i | 0 <= i < |payload| ensures Masked(Masked(payload, mask), mask)[i] == payload[i] {
      XorTwice(payload[i], mask[i % 4]);
    }
  }

  function Pow256(width: nat): (p: nat)
    ensures p > 0
  {
    if width == 0 then 1 else 256 * Pow256(width - 1)
  }

  /** The `width` bytes of `n` in network order. */
  function BigEndian(n: nat, width: nat): (s: seq<byte>)
    ensures |s| == width
  {
    if width == 0 then [] else BigEndian(n / 256, width - 1) + [n % 256]
  }

  function FromBigEndian(s: seq<byte>): (n: nat)
    ensures n < Pow256(|s|)
  {
    if s == [] then 0 else 256 * FromBigEndian(s[..|s| - 1]) + s[|s| - 1]
  }

  lemma {:induction false} BigEndianRoundTrip(n: nat, width: nat)
    requires n < Pow256(width)
    ensures FromBigEndian(BigEndian(n, width)) == n
  {
    if width > 0 {
      BigEndianRoundTrip(n / 256, width - 1);
      assert BigEndian(n, width)[..width - 1] == BigEndian(n / 256, width - 1);
    }
  }

  /** Byte `i` of `width` has the weight of the bytes after it. */
  lemma {:induction false} NetworkOrder(n: nat, width: nat, i: nat)
    requires i < width
    ensures BigEndian(n, width)[i] == n / Pow256(width - 1 - i) % 256
    decreases width
  {
    var front := BigEndian(n / 256, width - 1);
    assert BigEndian(n, width) == front + [n % 256];
    if i == width - 1 {
      assert Pow256(0) == 1 && n / 1 == n;
    } else {
      NetworkOrder(n / 256, width - 1, i);
      var d := Pow256(width - 2 - i);
      DivideTwice(n, d);
      assert Pow256(width - 1 - i) == 256 * d;
      assert BigEndian(n, width)[i] == front[i];
    }
  }

  lemma Widths()
    ensures Pow256(2) == MAX_16 && Pow256(8) == MAX_64
  {}

  // ---------------------------------------------------------------------------
  // Printing
  // ---------------------------------------------------------------------------

  predicate Fits(n: nat, form: Form)
  {
    match form
    case Short => n < 126
    case Medium => n < MAX_16
    case Long => n < MAX_64
  }

  function ShortestForm(n: nat): Form
  {
    if n < 126 then Short else if n < MAX_16 then Medium else Long
  }

  function LengthBytes(n: nat, masked: bool, form: Form): seq<byte>
    requires Fits(n, form)
  {
    var bit := if masked then 128 else 0;
    match form
    case Short => [bit + n]
    case Medium => [bit + 126] + BigEndian(n, 2)
    case Long => [bit + 127] + BigEndian(n, 8)
  }

  /** A frame as a peer may put it on the wire, in any length form that fits, masked or not. */
  datatype Wire = Wire(frame: Frame, mask: Option<seq<byte>>, form: Form) {
    predicate Legal()
    {
      frame.opcode < 16 && Fits(|frame.payload|, form) && (mask.Some? ==> |mask.value| == 4)
    }

    function Body(): seq<byte>
      requires Legal()
    {
      if mask.None? then frame.payload else mask.value + Masked(frame.payload, mask.value)
    }

    function Bytes(): seq<byte>
      requires Legal()
    {
      [(if frame.final then 128 else 0) + frame.opcode]
      + LengthBytes(|frame.payload|, mask.Some?, form) + Body()
    }
  }

  /** What the client writes: a final frame, masked with its fixed key, in the shortest form. */
  function ClientWire(opcode: byte, payload: seq<byte>): Wire
  {
    Wire(Frame(true, opcode, payload), Some(MASK), ShortestForm(|payload|))
  }

  lemma XorStep(a: nat, m: nat, bits: nat, r: nat)
    requires XorBits(a / 2, m / 2, bits) == r
    ensures XorBits(a, m, bits + 1) == (if a % 2 == m % 2 then 0 else 1) + 2 * r
  {}

  /** A witness: the eight bytes that carry the text `{}`. */
  lemma EmptyObjectOnTheWire()
    ensures ClientWire(1, [0x7b, 0x7d]).Bytes() == [0x81, 0x82, 0x5a, 0x17, 0xc3, 0xe1, 0x21, 0x6a]
  {
    hide Xor;
    var payload := [0x7b, 0x7d];
    XorOf7bAnd5a();
    XorOf7dAnd17();
    assert Masked(payload, MASK) == [0x21, 0x6a];
    assert LengthBytes(2, true, Short) == [0x82];
    assert ClientWire(1, payload).Body() == MASK + [0x21, 0x6a];
  }

  lemma XorOf7bAnd5a()
    ensures Xor(0x7b, 0x5a) == 0x21
  {
    XorStep(0, 0, 0, 0);
    XorStep(1, 1, 1, 0);
    XorStep(3, 2, 2, 0);
    XorStep(7, 5, 3, 1);
    XorStep(15, 11, 4, 2);
    XorStep(30, 22, 5, 4);
    XorStep(61, 45, 6, 8);
    XorStep(123, 90, 7, 16);
  }

  lemma XorOf7dAnd17()
    ensures Xor(0x7d, 0x17) == 0x6a
  {
    XorStep(0, 0, 0, 0);
    XorStep(1, 0, 1, 0);
    XorStep(3, 0, 2, 1);
    XorStep(7, 1, 3, 3);
    XorStep(15, 2, 4, 6);
    XorStep(31, 5, 5, 13);
    XorStep(62, 11, 6, 26);
    XorStep(125, 23, 7, 53);
  }

  function WireLength(n: nat, form: Form): nat
  {
    n + match form case Short => 6 case Medium => 8 case Long => 14
  }

  /** No legal form of the same payload is shorter, and the 64-bit form keeps its top bit clear below 2^63. */
  lemma ShortestFormIsShortest(opcode: byte, payload: seq<byte>, form: Form)
    requires opcode < 16 && Fits(|payload|, form)
    ensures Fits(|payload|, ShortestForm(|payload|))
    ensures |ClientWire(opcode, payload).Bytes()| <= |Wire(Frame(true, opcode, payload), Some(MASK), form).Bytes()|
    ensures |ClientWire(opcode, payload).Bytes()| == WireLength(|payload|, ShortestForm(|payload|))
  {}

  lemma {:induction false} TopByte(n: nat, width: nat)
    requires width > 0 && n < Pow256(width)
    ensures BigEndian(n, width)[0] == n / Pow256(width - 1)
  {
    if width > 1 {
      TopByte(n / 256, width - 1);
      DivideTwice(n, Pow256(width - 2));
    } else {
      assert BigEndian(n, 1) == BigEndian(n / 256, 0) + [n % 256];
    }
  }

  lemma DivideTwice(n: nat, d: nat)
    requires d > 0
    ensures n / 256 / d == n / (256 * d)
  {
    var q := n / 256 / d;
    var r := n / 256 % d;
    assert n == 256 * (n / 256) + n % 256;
    assert n == 256 * d * q + (256 * r + n % 256) by {
      assert n / 256 == d * q + r;
    }
    QuotientIs(n, 256 * d, q, 256 * r + n % 256);
  }

  lemma QuotientIs(n: nat, d: nat, q: nat, r: nat)
    requires n == d * q + r && r < d
    ensures n / d == q
  {
    var k := n / d;
    assert n == d * k + n % d;
    if k < q { Multiply(d, k + 1, q); } else if q < k { Multiply(d, q + 1, k); }
  }

  lemma Multiply(d: nat, a: nat, b: nat)
    requires a <= b
    ensures d * a <= d * b
  {}

  /** The most significant bit of the 64-bit length is 0, as section 5.2 asks, exactly below 2^63. */
  lemma TopBitClear(n: nat)
    requires n < MAX_64
    ensures BigEndian(n, 8)[0] < 128 <==> n < MAX_64 / 2
  {
    Widths();
    TopByte(n, 8);
    assert Pow256(8) == 256 * Pow256(7);
  }

  // ---------------------------------------------------------------------------
  // Parsing
  // ---------------------------------------------------------------------------

  /** `size` bytes if the stream still has them; otherwise what is left is consumed. */
  function Take(s: seq<byte>, size: nat): (Option<seq<byte>>, seq<byte>)
  {
    if size <= |s| then (Some(s[..size]), s[size..]) else (None, [])
  }

  function TakeLength(seven: int, s: seq<byte>): (r: (Option<nat>, seq<byte>))
    requires 0 <= seven < 128
    ensures r.0.Some? ==> r.0.value < MAX_64
    ensures |r.1| <= |s|
  {
    Widths();
    if seven < 126 then (Some(seven), s)
    else
      var (raw, rest) := Take(s, if seven == 126 then 2 else 8);
      (if raw.None? then None else Some(FromBigEndian(raw.value)), rest)
  }

  function Unmask(mask: Option<seq<byte>>, payload: seq<byte>): seq<byte>
    requires mask.Some? ==> |mask.value| == 4
  {
    if mask.None? then payload else Masked(payload, mask.value)
  }

  /** One raw frame, and the bytes that follow it. */
  function ParseRaw(s: seq<byte>): (r: (Option<Frame>, seq<byte>))
    ensures |r.1| <= |s|
    ensures r.0.Some? ==> |r.1| < |s| && r.0.value.opcode < 16 && |r.0.value.payload| < MAX_64
  {
    var (header, s1) := Take(s, 2);
    if header.None? then (None, s1) else ParseAfter(header.value, s1)
  }

  function ParseAfter(header: seq<byte>, s1: seq<byte>): (r: (Option<Frame>, seq<byte>))
    requires |header| == 2
    ensures |r.1| <= |s1|
    ensures r.0.Some? ==> r.0.value.opcode < 16 && |r.0.value.payload| < MAX_64
  {
    var (length, s2) := TakeLength(header[1] % 128, s1);
    if length.None? then (None, s2)
    else
      // A mask key that never arrives leaves an empty payload readable.
      var (mask, s3) := if header[1] >= 128 then Take(s2, 4) else (None, s2);
      var (payload, s4) := Take(s3, length.value);
      if payload.None? then (None, s4)
      else (Some(Frame(header[0] >= 128, header[0] % 16, Unmask(mask, payload.value))), s4)
  }

  lemma TakeFront(a: seq<byte>, rest: seq<byte>)
    ensures Take(a + rest, |a|) == (Some(a), rest)
  {}

  lemma LengthRoundTrip(n: nat, masked: bool, form: Form, rest: seq<byte>)
    requires Fits(n, form)
    ensures var l := LengthBytes(n, masked, form);
            TakeLength(l[0] % 128, l[1..] + rest) == (Some(n), rest)
  {
    Widths();
    match form
    case Short => assert LengthBytes(n, masked, form)[1..] + rest == rest;
    case Medium => BigEndianRoundTrip(n, 2); TakeFront(BigEndian(n, 2), rest);
    case Long => BigEndianRoundTrip(n, 8); TakeFront(BigEndian(n, 8), rest);
  }

  lemma BodyRoundTrip(w: Wire, rest: seq<byte>)
    requires w.Legal()
    ensures var (mask, s3) := if w.mask.Some? then Take(w.Body() + rest, 4) else (None, w.Body() + rest);
            && mask == w.mask
            && Take(s3, |w.frame.payload|).0.Some?
            && Take(s3, |w.frame.payload|).1 == rest
            && Unmask(mask, Take(s3, |w.frame.payload|).0.value) == w.frame.payload
  {
    if w.mask.Some? {
      var masked := Masked(w.frame.payload, w.mask.value);
      assert w.Body() + rest == w.mask.value + (masked + rest);
      TakeFront(w.mask.value, masked + rest);
      TakeFront(masked, rest);
      MaskedTwice(w.frame.payload, w.mask.value);
    } else {
      TakeFront(w.frame.payload, rest);
    }
  }

  lemma FirstByte(final: bool, opcode: byte)
    requires opcode < 16
    ensures ((if final then 128 else 0) + opcode) % 16 == opcode
  {}

  lemma AfterRoundTrip(w: Wire, header: seq<byte>, s1: seq<byte>, rest: seq<byte>)
    requires w.Legal() && |header| == 2
    requires header[0] % 16 == w.frame.opcode && (header[0] >= 128 <==> w.frame.final)
    requires header[1] >= 128 <==> w.mask.Some?
    requires TakeLength(header[1] % 128, s1) == (Some(|w.frame.payload|), w.Body() + rest)
    ensures ParseAfter(header, s1) == (Some(w.frame), rest)
  {
    BodyRoundTrip(w, rest);
  }

  /** Reading back any legal frame gives that frame and consumes exactly its bytes. */
  lemma RawRoundTrip(w: Wire, rest: seq<byte>)
    requires w.Legal()
    ensures ParseRaw(w.Bytes() + rest) == (Some(w.frame), rest)
  {
    var first := (if w.frame.final then 128 else 0) + w.frame.opcode;
    var l := LengthBytes(|w.frame.payload|, w.mask.Some?, w.form);
    var header, s1 := [first, l[0]], l[1..] + (w.Body() + rest);
    LengthRoundTrip(|w.frame.payload|, w.mask.Some?, w.form, w.Body() + rest);
    FirstByte(w.frame.final, w.frame.opcode);
    AfterRoundTrip(w, header, s1, rest);
    BytesSplit(w, rest);
    TakeFront(header, s1);
  }

  /**
   What the client writes for any opcode and payload is read back as that final frame, and nothing more is
   consumed.
   */
  lemma ClientRoundTrip(opcode: byte, payload: seq<byte>, rest: seq<byte>)
    requires opcode < 16 && |payload| < MAX_64
    ensures ParseRaw(ClientWire(opcode, payload).Bytes() + rest) == (Some(Frame(true, opcode, payload)), rest)
  {
    RawRoundTrip(ClientWire(opcode, payload), rest);
  }

  lemma BytesSplit(w: Wire, rest: seq<byte>)
    requires w.Legal()
    ensures var l := LengthBytes(|w.frame.payload|, w.mask.Some?, w.form);
            w.Bytes() + rest ==
              [(if w.frame.final then 128 else 0) + w.frame.opcode, l[0]] + (l[1..] + (w.Body() + rest))
  {}

  // ---------------------------------------------------------------------------
  // Messages: fragments with control frames between them
  // ---------------------------------------------------------------------------

  const CONTINUATION := 0
  const CLOSE := 8
  const PING := 9
  const PONG := 10

  datatype Message = Message(opcode: byte, payload: seq<byte>)

  function Pong(payload: seq<byte>): seq<byte>
    requires |payload| < MAX_64
  {
    ClientWire(PONG, payload).Bytes()
  }

  /** What one call of the message reader returns, writes and leaves unread. */
  datatype Reading = Reading(message: Option<Message>, sent: seq<byte>, rest: seq<byte>)

  /** Continuation frames up to the final one; pings in between are answered. */
  function ReadOn(opcode: byte, gathered: seq<byte>, s: seq<byte>): Reading
    decreases |s|
  {
    var (raw, rest) := ParseRaw(s);
    if raw.None? then Reading(None, [], rest)
    else if raw.value.opcode == PING then
      var r := ReadOn(opcode, gathered, rest);
      r.(sent := Pong(raw.value.payload) + r.sent)
    else if raw.value.opcode != CONTINUATION then Reading(None, [], rest)
    else if raw.value.final then Reading(Some(Message(opcode, gathered + raw.value.payload)), [], rest)
    else ReadOn(opcode, gathered + raw.value.payload, rest)
  }

  function ReadMessage(s: seq<byte>): Reading
  {
    var (raw, rest) := ParseRaw(s);
    if raw.None? then Reading(None, [], rest)
    else if raw.value.opcode == PING then Reading(None, Pong(raw.value.payload), rest)
    else if raw.value.opcode != 1 && raw.value.opcode != 2 then Reading(None, [], rest)
    else if raw.value.final then Reading(Some(Message(raw.value.opcode, raw.value.payload)), [], rest)
    else ReadOn(raw.value.opcode, raw.value.payload, rest)
  }

  lemma ReadOnPing(opcode: byte, gathered: seq<byte>, s: seq<byte>)
    ensures ParseRaw(s).0.Some? && ParseRaw(s).0.value.opcode == PING ==>
              var more := ReadOn(opcode, gathered, ParseRaw(s).1);
              ReadOn(opcode, gathered, s) == more.(sent := Pong(ParseRaw(s).0.value.payload) + more.sent)
  {}

  predicate AllLegal(ws: seq<Wire>)
  {
    forall i :: 0 <= i < |ws| ==> ws[i].Legal()
  }

  function BytesOf(ws: seq<Wire>): seq<byte>
    requires AllLegal(ws)
  {
    if ws == [] then [] else ws[0].Bytes() + BytesOf(ws[1..])
  }

  /** The frames after the first fragment: only the last one is a final continuation. */
  predicate EndsAtLast(ws: seq<Wire>)
  {
    && ws != []
    && (forall i :: 0 <= i < |ws| ==>
          (ws[i].frame.opcode == CONTINUATION && ws[i].frame.final <==> i == |ws| - 1))
  }

  predicate OnlyPingsBetween(ws: seq<Wire>)
  {
    forall i :: 0 <= i < |ws| ==> ws[i].frame.opcode == CONTINUATION || ws[i].frame.opcode == PING
  }

  function Continued(ws: seq<Wire>): seq<byte>
  {
    if ws == [] then []
    else (if ws[0].frame.opcode == CONTINUATION then ws[0].frame.payload else []) + Continued(ws[1..])
  }

  /** A pong of the same payload for each ping, in order. */
  function Pongs(ws: seq<Wire>): seq<byte>
    requires AllLegal(ws)
  {
    if ws == [] then []
    else
      (if ws[0].frame.opcode == PING then Pong(ws[0].frame.payload) else []) + Pongs(ws[1..])
  }

  lemma {:induction false} ReadOnGathers(opcode: byte, gathered: seq<byte>, ws: seq<Wire>, rest: seq<byte>)
    requires AllLegal(ws) && EndsAtLast(ws) && OnlyPingsBetween(ws)
    ensures ReadOn(opcode, gathered, BytesOf(ws) + rest)
            == Reading(Some(Message(opcode, gathered + Continued(ws))), Pongs(ws), rest)
    decreases |ws|
  {
    var w, more := ws[0], ws[1..];
    assert BytesOf(ws) + rest == w.Bytes() + (BytesOf(more) + rest);
    RawRoundTrip(w, BytesOf(more) + rest);
    if |ws| == 1 {
      assert BytesOf(more) + rest == rest;
      assert gathered + Continued(ws) == gathered + w.frame.payload;
    } else {
      TailEndsAtLast(ws);
      if w.frame.opcode == PING {
        ReadOnGathers(opcode, gathered, more, rest);
        assert Continued(ws) == Continued(more);
      } else {
        ReadOnGathers(opcode, gathered + w.frame.payload, more, rest);
        assert gathered + Continued(ws) == gathered + w.frame.payload + Continued(more);
        assert Pongs(ws) == Pongs(more);
      }
    }
  }

  lemma TailEndsAtLast(ws: seq<Wire>)
    requires EndsAtLast(ws) && |ws| > 1
    ensures EndsAtLast(ws[1..])
    ensures ws[0].frame.opcode != CONTINUATION || !ws[0].frame.final
  {}

  /** How many frames come before the first one that may not stand between fragments. */
  function Undisturbed(ws: seq<Wire>): (n: nat)
    ensures n <= |ws| && OnlyPingsBetween(ws[..n]) && (n == |ws| <==> OnlyPingsBetween(ws))
    ensures n < |ws| ==> ws[n].frame.opcode != CONTINUATION && ws[n].frame.opcode != PING
  {
    if ws == [] || (ws[0].frame.opcode != CONTINUATION && ws[0].frame.opcode != PING) then 0
    else
      1 + Undisturbed(ws[1..])
  }

  /** What a message disturbed between its fragments comes to: the pings so far are answered, the rest stays unread. */
  function GivenUp(ws: seq<Wire>, rest: seq<byte>): Reading
    requires AllLegal(ws) && !OnlyPingsBetween(ws)
  {
    Reading(None, Pongs(ws[..Undisturbed(ws)]), BytesOf(ws[Undisturbed(ws) + 1..]) + rest)
  }

  lemma PongsTake(ws: seq<Wire>, n: nat)
    requires AllLegal(ws) && 0 < n <= |ws|
    ensures AllLegal(ws[..n])
    ensures Pongs(ws[..n]) ==
            (if ws[0].frame.opcode == PING then Pong(ws[0].frame.payload) else []) + Pongs(ws[1..][..n - 1])
  {
    hide Pong;
    assert ws[..n][1..] == ws[1..][..n - 1];
  }

  lemma GivenUpLater(ws: seq<Wire>, rest: seq<byte>)
    requires AllLegal(ws) && Undisturbed(ws) < |ws| && Undisturbed(ws) > 0
    ensures !OnlyPingsBetween(ws[1..])
    ensures var r := GivenUp(ws[1..], rest);
            GivenUp(ws, rest) ==
              if ws[0].frame.opcode == PING then r.(sent := Pong(ws[0].frame.payload) + r.sent) else r
  {
    hide Pong, Pongs, BytesOf;
    var n := Undisturbed(ws);
    PongsTake(ws, n);
    assert Undisturbed(ws[1..]) == n - 1;
    assert ws[n + 1..] == ws[1..][n..];
  }

  lemma {:induction false} ReadOnStops(opcode: byte, gathered: seq<byte>, ws: seq<Wire>, rest: seq<byte>)
    requires AllLegal(ws) && EndsAtLast(ws) && !OnlyPingsBetween(ws)
    ensures ReadOn(opcode, gathered, BytesOf(ws) + rest) == GivenUp(ws, rest)
    decreases |ws|
  {
    var w, more := ws[0], ws[1..];
    assert BytesOf(ws) + rest == w.Bytes() + (BytesOf(more) + rest);
    RawRoundTrip(w, BytesOf(more) + rest);
    hide Pong, Pongs, ParseRaw;
    if Undisturbed(ws) == 0 {
      assert ws[..0] == [];
    } else {
      TailEndsAtLast(ws);
      GivenUpLater(ws, rest);
      ReadOnStops(opcode, if w.frame.opcode == PING then gathered else gathered + w.frame.payload, more, rest);
    }
  }

  /**
   A fragmented message, its fragments in any legal form, is delivered whole
   exactly when nothing but pings stands between its fragments; then each ping
   has been answered in order and nothing beyond the message was read. A pong
   or a close between fragments makes the reader give the message up: the pings
   before that frame have been answered, and everything after it stays unread.
   */
  lemma FragmentedMessage(first: Wire, ws: seq<Wire>, rest: seq<byte>)
    requires first.Legal() && first.frame.opcode in {1, 2} && !first.frame.final
    requires AllLegal(ws) && EndsAtLast(ws)
    ensures ReadMessage(first.Bytes() + (BytesOf(ws) + rest)) ==
            if OnlyPingsBetween(ws) then
              Reading(Some(Message(first.frame.opcode, first.frame.payload + Continued(ws))), Pongs(ws), rest)
            else GivenUp(ws, rest)
  {
    RawRoundTrip(first, BytesOf(ws) + rest);
    if OnlyPingsBetween(ws) {
      ReadOnGathers(first.frame.opcode, first.frame.payload, ws, rest);
    } else {
      ReadOnStops(first.frame.opcode, first.frame.payload, ws, rest);
    }
  }

  /** An unmasked frame in the short form, as a server sends it. */
  function Plain(final: bool, opcode: byte, payload: seq<byte>): Wire
  {
    Wire(Frame(final, opcode, payload), None, Short)
  }

  /** A witness: a pong between the two fragments of a text makes the reader give the text up, its end unread. */
  lemma PongBetweenFragmentsDropsMessage(p: seq<byte>, q: seq<byte>, rest: seq<byte>)
    requires |p| < 126 && |q| < 126
    ensures var start, pong, last := Plain(false, 1, p), Plain(true, PONG, []), Plain(true, CONTINUATION, q);
            ReadMessage(start.Bytes() + (pong.Bytes() + last.Bytes() + rest)) == Reading(None, [], last.Bytes() + rest)
  {
    var start, pong, last := Plain(false, 1, p), Plain(true, PONG, []), Plain(true, CONTINUATION, q);
    var ws := [pong, last];
    assert ws[0] == pong && !OnlyPingsBetween(ws) && Undisturbed(ws) == 0;
    var tail := ws[1..];
    assert tail == [last] && AllLegal(tail) && AllLegal(tail[1..]);
    assert BytesOf(tail) == last.Bytes() + BytesOf(tail[1..]) == last.Bytes();
    assert BytesOf(ws) == pong.Bytes() + BytesOf(tail);
    FragmentedMessage(start, ws, rest);
  }

  /** Any other first frame is one call's work: a whole message, a ping that is answered, or a frame that is dropped. */
  lemma UnfragmentedMessage(first: Wire, rest: seq<byte>)
    requires first.Legal() && (first.frame.opcode in {1, 2} ==> first.frame.final)
    ensures ReadMessage(first.Bytes() + rest) ==
            if first.frame.opcode in {1, 2} then
              Reading(Some(Message(first.frame.opcode, first.frame.payload)), [], rest)
            else Reading(None, if first.frame.opcode == PING then Pong(first.frame.payload) else [], rest)
  {
    RawRoundTrip(first, rest);
  }

  /** The answer to a ping is a final pong frame of the same payload (section 5.5.3). */
  lemma PongIsRead(payload: seq<byte>, rest: seq<byte>)
    requires |payload| < MAX_64
    ensures ParseRaw(Pong(payload) + rest) == (Some(Frame(true, 10, payload)), rest)
  {
    ClientRoundTrip(10, payload, rest);
  }

  function HeaderLength(form: Form): nat
  {
    match form
    case Short => 2
    case Medium => 4
    case Long => 10
  }

  lemma LengthCutShort(n: nat, masked: bool, form: Form, s: seq<byte>)
    requires Fits(n, form) && |s| + 2 < HeaderLength(form)
    ensures TakeLength(LengthBytes(n, masked, form)[0] % 128, s).0.None?
  {}

  lemma HeaderCutShort(w: Wire, k: nat)
    requires w.Legal() && k < HeaderLength(w.form) && k < |w.Bytes()|
    ensures ParseRaw(w.Bytes()[..k]).0.None?
  {
    hide TakeLength, LengthBytes;
    BytesSplit(w, []);
    if k >= 2 { LengthCutShort(|w.frame.payload|, w.mask.Some?, w.form, w.Bytes()[..k][2..]); }
  }

  lemma MaskCutShort(w: Wire, n: nat)
    requires w.Legal() && n < |w.Body()|
    ensures var (mask, s3) := if w.mask.Some? then Take(w.Body()[..n], 4) else (None, w.Body()[..n]);
            var payload := Take(s3, |w.frame.payload|).0;
            && (payload.Some? <==> w.mask.Some? && w.frame.payload == [])
            && (payload.Some? ==> mask.None? && payload.value == w.frame.payload)
  {}

  lemma AfterCutShort(w: Wire, header: seq<byte>, s1: seq<byte>, n: nat)
    requires w.Legal() && |header| == 2 && n < |w.Body()|
    requires header[0] % 16 == w.frame.opcode && (header[0] >= 128 <==> w.frame.final)
    requires header[1] >= 128 <==> w.mask.Some?
    requires TakeLength(header[1] % 128, s1) == (Some(|w.frame.payload|), w.Body()[..n])
    ensures ParseAfter(header, s1).0 == if w.mask.Some? && w.frame.payload == [] then Some(w.frame) else None
  {
    MaskCutShort(w, n);
  }

  lemma BodyCutShort(w: Wire, k: nat)
    requires w.Legal() && HeaderLength(w.form) <= k < |w.Bytes()|
    ensures ParseRaw(w.Bytes()[..k]).0 == if w.mask.Some? && w.frame.payload == [] then Some(w.frame) else None
  {
    hide TakeLength, ParseAfter;
    var n := k - HeaderLength(w.form);
    var l := LengthBytes(|w.frame.payload|, w.mask.Some?, w.form);
    var header, s1 := [(if w.frame.final then 128 else 0) + w.frame.opcode, l[0]], l[1..] + w.Body()[..n];
    BytesCut(w, k);
    LengthRoundTrip(|w.frame.payload|, w.mask.Some?, w.form, w.Body()[..n]);
    FirstByte(w.frame.final, w.frame.opcode);
    TakeFront(header, s1);
    AfterCutShort(w, header, s1, n);
  }

  lemma BytesCut(w: Wire, k: nat)
    requires w.Legal() && HeaderLength(w.form) <= k < |w.Bytes()|
    ensures var l := LengthBytes(|w.frame.payload|, w.mask.Some?, w.form);
            w.Bytes()[..k] ==
              [(if w.frame.final then 128 else 0) + w.frame.opcode, l[0]]
              + (l[1..] + w.Body()[..k - HeaderLength(w.form)])
  {
    BytesSplit(w, []);
  }

  /**
   Of the proper prefixes of a legal frame exactly these are read as if they were whole: a masked frame
   without a payload that breaks off within its mask key.
   */
  lemma TruncatedFrame(w: Wire, k: nat)
    requires w.Legal() && k < |w.Bytes()|
    ensures ParseRaw(w.Bytes()[..k]).0 ==
            if w.mask.Some? && w.frame.payload == [] && k >= HeaderLength(w.form) then Some(w.frame) else None
  {
    if k < HeaderLength(w.form) { HeaderCutShort(w, k); } else { BodyCutShort(w, k); }
  }

  /** A witness: the two header bytes of a masked empty frame. */
  lemma TruncatedEmptyFrameIsRead(opcode: byte)
    requires opcode < 16
    ensures ParseRaw([128 + opcode, 128]) == (Some(Frame(true, opcode, [])), [])
  {}

  lemma HeaderIs(opcode: byte, length: nat, header: seq<byte>)
    requires opcode < 16 && length < MAX_64
    requires header ==
             if length < 126 then [128 + opcode, 128 + length]
             else if length < MAX_16 then [128 + opcode, 128 + 126] + BigEndian(length, 2)
             else [128 + opcode, 128 + 127] + BigEndian(length, 8)
    ensures header == [128 + opcode] + LengthBytes(length, true, ShortestForm(length))
  {}

  lemma ClientBytes(opcode: byte, payload: seq<byte>)
    requires opcode < 16 && |payload| < MAX_64
    ensures ClientWire(opcode, payload).Bytes() ==
            ([128 + opcode] + LengthBytes(|payload|, true, ShortestForm(|payload|))) + (MASK + Masked(payload, MASK))
  {}

  lemma Regroup(a: seq<byte>, b: seq<byte>, c: seq<byte>)
    ensures a + b + c == a + (b + c)
  {}

  // ---------------------------------------------------------------------------
  // The client over a socket
  // ---------------------------------------------------------------------------

  /** A connected stream: each read delivers any non-empty prefix of what is left, up to the size asked for. */
  class Socket {
    var input: seq<byte>
    var sent: seq<byte>

    constructor (input: seq<byte>)
      ensures this.input == input && sent == []
    {
      this.input := input;
      sent := [];
    }

    method Recv(size: nat) returns (chunk: seq<byte>)
      requires size > 0
      modifies this`input
      ensures old(input) == chunk + input && |chunk| <= size
      ensures chunk == [] <==> old(input) == []
    {
      if input == [] { return []; }
      var n: nat :| 1 <= n <= size && n <= |input|;
      chunk := input[..n];
      input := input[n..];
    }

    method SendAll(bytes: seq<byte>)
      modifies this`sent
      ensures sent == old(sent) + bytes
    {
      sent := sent + bytes;
    }
  }

  class Client {
    const socket: Socket

    constructor (socket: Socket)
      ensures this.socket == socket
    {
      this.socket := socket;
    }

    /** A payload of 2^64 bytes or more has no 64-bit length and is not sent. */
    method SendFrame(payload: seq<byte>, opcode: byte) returns (ok: bool)
      requires opcode < 16
      modifies socket`sent
      ensures ok <==> |payload| < MAX_64
      ensures socket.sent == old(socket.sent) + if ok then ClientWire(opcode, payload).Bytes() else []
    {
      var length := |payload|;
      if length >= MAX_64 { return false; }
      var header: seq<byte>;
      if length < 126 {
        header := [128 + opcode, 128 + length];
      } else if length < MAX_16 {
        header := [128 + opcode, 128 + 126] + BigEndian(length, 2);
      } else {
        header := [128 + opcode, 128 + 127] + BigEndian(length, 8);
      }
      HeaderIs(opcode, length, header);
      var mask, masked := MASK, Masked(payload, MASK);
      ClientBytes(opcode, payload);
      Regroup(header, mask, masked);
      socket.SendAll(header + mask + masked);
      ok := true;
    }

    method RecvExact(size: nat) returns (r: Option<seq<byte>>)
      modifies socket`input
      ensures (r, socket.input) == Take(old(socket.input), size)
    {
      var chunks: seq<byte> := [];
      var remaining := size;
      while remaining > 0
        invariant 0 <= remaining && |chunks| + remaining == size
        invariant old(socket.input) == chunks + socket.input
      {
        var chunk := socket.Recv(remaining);
        if chunk == [] {
          assert old(socket.input) == chunks;
          return None;
        }
        chunks := chunks + chunk;
        remaining := remaining - |chunk|;
      }
      TakeFront(chunks, socket.input);
      r := Some(chunks);
    }

    method RecvRawFrame() returns (r: Option<Frame>)
      modifies socket`input
      ensures (r, socket.input) == ParseRaw(old(socket.input))
    {
      var header := RecvExact(2);
      if header.None? { return None; }
      r := RecvAfter(header.value);
    }

    method RecvAfter(header: seq<byte>) returns (r: Option<Frame>)
      requires |header| == 2
      modifies socket`input
      ensures (r, socket.input) == ParseAfter(header, old(socket.input))
    {
      var length := header[1] % 128;
      if length == 126 {
        var raw := RecvExact(2);
        if raw.None? { return None; }
        length := FromBigEndian(raw.value);
      } else if length == 127 {
        var raw := RecvExact(8);
        if raw.None? { return None; }
        length := FromBigEndian(raw.value);
      }
      var mask: Option<seq<byte>> := None;
      if header[1] >= 128 { mask := RecvExact(4); }
      var payload := RecvExact(length);
      if payload.None? { return None; }
      r := Some(Frame(header[0] >= 128, header[0] % 16, Unmask(mask, payload.value)));
    }

    method RecvFrame() returns (r: Option<Message>)
      modifies socket
      ensures var reading := ReadMessage(old(socket.input));
              r == reading.message && socket.input == reading.rest && socket.sent == old(socket.sent) + reading.sent
    {
      var raw := RecvRawFrame();
      if raw.None? { return None; }
      var opcode, final := raw.value.opcode, raw.value.final;
      if opcode == PING {
        var _ := SendFrame(raw.value.payload, PONG);
        return None;
      }
      if opcode == CLOSE { return None; }
      if opcode != 1 && opcode != 2 { return None; }
      if final { return Some(Message(opcode, raw.value.payload)); }
      r := RecvRest(opcode, raw.value.payload);
    }

    /** The loop over the frames after a first fragment. */
    method RecvRest(opcode: byte, first: seq<byte>) returns (r: Option<Message>)
      modifies socket
      ensures var reading := ReadOn(opcode, first, old(socket.input));
              r == reading.message && socket.input == reading.rest && socket.sent == old(socket.sent) + reading.sent
    {
      var fragments, final := first, false;
      ghost var whole := ReadOn(opcode, first, socket.input);
      while !final
        invariant final ==> whole.message == Some(Message(opcode, fragments)) && whole.rest == socket.input
        invariant final ==> old(socket.sent) + whole.sent == socket.sent
        invariant !final ==> whole.message == ReadOn(opcode, fragments, socket.input).message
        invariant !final ==> whole.rest == ReadOn(opcode, fragments, socket.input).rest
        invariant !final ==> old(socket.sent) + whole.sent == socket.sent + ReadOn(opcode, fragments, socket.input).sent
        decreases !final, |socket.input|
      {
        ghost var sent, input := socket.sent, socket.input;
        var continuation := RecvRawFrame();
        if continuation.None? { return None; }
        if continuation.value.opcode == PING {
          var _ := SendFrame(continuation.value.payload, PONG);
          ReadOnPing(opcode, fragments, input);
          Regroup(sent, Pong(continuation.value.payload), ReadOn(opcode, fragments, socket.input).sent);
          continue;
        }
        if continuation.value.opcode != CONTINUATION { return None; }
        fragments := fragments + continuation.value.payload;
        final := continuation.value.final;
      }
      r := Some(Message(opcode, fragments));
    }
  }
}
