/**
 WebSocket frames as the event endpoint writes and reads them (sections 5.2 and 5.3 of
 RFC 6455). Bit operations on header bytes are written as arithmetic: for a byte `x`,
 `x & 0x0f` is `x % 16`, `x & 0x7f` is `x % 128`, `x & 0x80` is non-zero when `x >= 128`, and
 `0x80 | opcode` is `128 + opcode` for a four-bit opcode.
*/
module WebSocketFrames {
  import opened Wrappers
  import opened Framing

  datatype WsFrame = WsFrame(opcode: nat, payload: Bytes)

  // ----- masking

  function XorBits(a: nat, b: nat, n: nat): nat {
    if n == 0 then 0 else 2 * XorBits(a / 2, b / 2, n - 1) + (if a % 2 == b % 2 then 0 else 1)
  }

  function Pow2(n: nat): nat { if n == 0 then 1 else 2 * Pow2(n - 1) }

  lemma {:induction false} XorBounded(a: nat, b: nat, n: nat)
    ensures XorBits(a, b, n) < Pow2(n)
  {
    if n > 0 { XorBounded(a / 2, b / 2, n - 1); }
  }

  lemma Halved(h: nat, bit: nat)
    requires bit < 2
    ensures (2 * h + bit) / 2 == h && (2 * h + bit) % 2 == bit
  {
  }

  lemma {:induction false} XorTwice(a: nat, b: nat, n: nat)
    requires a < Pow2(n)
    ensures XorBits(XorBits(a, b, n), b, n) == a
  {
    if n > 0 {
      XorTwice(a / 2, b / 2, n - 1);
      Halved(XorBits(a / 2, b / 2, n - 1), if a % 2 == b % 2 then 0 else 1);
    }
  }

  lemma EightBits()
    ensures Pow2(8) == 256
  {
    assert Pow2(4) == 16;
  }

  /** Bit `i` of `a`, counted from the least significant one. */
  function Bit(a: nat, i: nat): nat {
    if i == 0 then a % 2 else Bit(a / 2, i - 1)
  }

  /** Bit by bit it is the exclusive or. */
  lemma {:induction false} XorBit(a: nat, b: nat, n: nat, i: nat)
    requires i < n
    ensures Bit(XorBits(a, b, n), i) == if Bit(a, i) == Bit(b, i) then 0 else 1
  {
    Halved(XorBits(a / 2, b / 2, n - 1), if a % 2 == b % 2 then 0 else 1);
    if i > 0 { XorBit(a / 2, b / 2, n - 1, i - 1); }
  }

  function Xor(a: Byte, b: Byte): Byte {
    EightBits();
    XorBounded(a, b, 8);
    XorBits(a, b, 8)
  }

  function Masked(payload: Bytes, mask: Bytes): Bytes
    requires |mask| == 4
  {
    seq(|payload|, i requires 0 <= i < |payload| => Xor(payload[i], mask[i % 4]))
  }

  /** Byte `i` is masked bit by bit with byte `i` modulo 4 of the key, as section 5.3 of RFC 6455 has it. */
  lemma MaskedBit(payload: Bytes, mask: Bytes, i: nat, bit: nat)
    requires |mask| == 4 && i < |payload| && bit < 8
    ensures Bit(Masked(payload, mask)[i], bit) == if Bit(payload[i], bit) == Bit(mask[i % 4], bit) then 0 else 1
  {
    XorBit(payload[i], mask[i % 4], 8, bit);
  }

  /** Masking with the same key again gives the payload back. */
  lemma MaskTwice(payload: Bytes, mask: Bytes)
    requires |mask| == 4
    ensures Masked(Masked(payload, mask), mask) == payload
  {
    EightBits();
    forall i | 0 <= i < |payload| ensures Masked(Masked(payload, mask), mask)[i] == payload[i] {
      XorTwice(payload[i], mask[i % 4], 8);
    }
  }

  // ----- the frame at the front of a buffer

  /** The payload length and where the bytes behind it start; None if they are not all there. */
  function LengthField(b: Bytes): Option<(nat, nat)>
    requires |b| >= 2
  {
    var length := b[1] % 128;
    if length == 126 then
      if |b| < 4 then None else Some((NumberAt(b, 2, 2), 4))
    else if length == 127 then
      if |b| < 10 then None else Some((NumberAt(b, 2, 8), 10))
    else Some((length, 2))
  }

  /** Where the payload of the frame at `start` begins, behind the length field and the mask. */
  function PayloadAt(b: Bytes, start: nat, at: nat): nat
    requires start + 2 <= |b|
  {
    if b[start + 1] >= 128 then at + 4 else at
  }

  function FrameAt(b: Bytes, start: nat, length: nat, at: nat): WsFrame
    requires start + 2 <= |b| && PayloadAt(b, start, at) + length <= |b|
  {
    var offset := PayloadAt(b, start, at);
    var raw := b[offset..offset + length];
    WsFrame(b[start] % 16, if b[start + 1] >= 128 then Masked(raw, b[at..at + 4]) else raw)
  }

  function ParseFrame(b: Bytes): Parsed<WsFrame> {
    if |b| < 2 || LengthField(b).None? then NeedMore
    else
      var (length, at) := LengthField(b).value;
      var end := PayloadAt(b, 0, at) + length;
      if end > |b| then NeedMore else Frame(FrameAt(b, 0, length, at), end)
  }

  /** Reads the length of the frame at `start`; None where the loop below breaks off. */
  method ReadLength(buffer: Bytes, start: nat) returns (r: Option<(nat, nat)>)
    requires start + 2 <= |buffer|
    ensures r == LengthField(buffer[start..])
  {
    var offset := start + 2;
    var length: nat := buffer[start + 1] % 128;
    if length == 126 {
      if offset + 2 > |buffer| {
        return None;
      }
      NumberOfDrop(buffer, start, 2, 2);
      length := NumberAt(buffer, offset, 2);
      offset := offset + 2;
    } else if length == 127 {
      if offset + 8 > |buffer| {
        return None;
      }
      NumberOfDrop(buffer, start, 2, 8);
      length := NumberAt(buffer, offset, 8);
      offset := offset + 8;
    }
    r := Some((length, offset - start));
  }

  method DecodeWsFrames(buffer: Bytes) returns (frames: seq<WsFrame>)
    ensures frames == Decode(ParseFrame, buffer).frames
  {
    var offset := 0;
    frames := [];
    CutNothing(ParseFrame, buffer);
    while offset + 2 <= |buffer|
      invariant 0 <= offset <= |buffer| && CutUpTo(ParseFrame, buffer, frames, offset)
    {
      var frame, next := NextFrame(buffer, offset);
      if frame.None? {
        break;
      }
      CutOne(ParseFrame, buffer, frames, offset, frame.value, next);
      frames := frames + [frame.value];
      offset := next;
    }
    CutAll(ParseFrame, buffer, frames, offset);
  }

  /** The frame at `start` and where it ends; None where the loop above breaks off. */
  method NextFrame(buffer: Bytes, start: nat) returns (frame: Option<WsFrame>, next: nat)
    requires start + 2 <= |buffer|
    ensures frame.None? ==> ParseFrame(buffer[start..]) == NeedMore
    ensures frame.Some? ==> start < next <= |buffer| && ParseFrame(buffer[start..]) == Frame(frame.value, next - start)
  {
    var field := ReadLength(buffer, start);
    if field.None? {
      return None, start;
    }
    var (length, size) := field.value;
    ParseAt(buffer, buffer[start..], start, length, start + size);
    frame, next := ReadFrame(buffer, start, length, start + size);
  }

  /** Reads mask and payload of the frame at `start`, whose length field ends at `at`. */
  method ReadFrame(buffer: Bytes, start: nat, length: nat, at: nat) returns (frame: Option<WsFrame>, next: nat)
    requires start + 2 <= at && start + 2 <= |buffer|
    ensures frame.None? <==> PayloadAt(buffer, start, at) + length > |buffer|
    ensures frame.Some? ==> next == PayloadAt(buffer, start, at) + length
                            && frame.value == FrameAt(buffer, start, length, at)
  {
    var masked := buffer[start + 1] >= 128;
    var offset := if masked then at + 4 else at;
    if offset + length > |buffer| {
      return None, start;
    }
    next := offset + length;
    var payload := ReadPayload(buffer[offset..next], if masked then Some(buffer[at..at + 4]) else None);
    frame := Some(WsFrame(buffer[start] % 16, payload));
  }

  /** Copies the payload out of the buffer and unmasks the copy in place. */
  method ReadPayload(slice: Bytes, mask: Option<Bytes>) returns (payload: Bytes)
    requires mask.Some? ==> |mask.value| == 4
    ensures payload == if mask.Some? then Masked(slice, mask.value) else slice
  {
    var copy := CopyOf(slice);
    if mask.Some? {
      Unmask(copy, mask.value);
    }
    payload := copy[..];
  }

  /** Two buffers with the same header bytes, mask and payload, `start` apart, hold the same frame. */
  lemma SameFrame(b: Bytes, c: Bytes, start: nat, length: nat, at: nat, raw: Bytes, mask: Bytes)
    requires start + 2 <= at && start + 2 <= |b| && 2 <= |c| && c[0] == b[start] && c[1] == b[start + 1]
    requires PayloadAt(b, start, at) + length <= |b| && PayloadAt(b, start, at) - start + length <= |c|
    requires var offset := PayloadAt(b, start, at);
             c[offset - start..offset - start + length] == raw == b[offset..offset + length]
    requires b[start + 1] >= 128 ==> c[at - start..at - start + 4] == mask == b[at..at + 4]
    ensures PayloadAt(c, 0, at - start) == PayloadAt(b, start, at) - start
    ensures FrameAt(c, 0, length, at - start) == FrameAt(b, start, length, at)
  {
  }

  lemma FrameOfDrop(b: Bytes, c: Bytes, start: nat, length: nat, at: nat)
    requires start + 2 <= at && start + 2 <= |b| && PayloadAt(b, start, at) + length <= |b| && c == b[start..]
    ensures PayloadAt(c, 0, at - start) == PayloadAt(b, start, at) - start
    ensures FrameAt(c, 0, length, at - start) == FrameAt(b, start, length, at)
  {
    var offset := PayloadAt(b, start, at);
    SliceOfDrop(b, c, start, offset - start, offset - start + length);
    if b[start + 1] >= 128 {
      SliceOfDrop(b, c, start, at - start, at - start + 4);
    }
    SameFrame(b, c, start, length, at, b[offset..offset + length], if b[start + 1] >= 128 then b[at..at + 4] else []);
  }

  lemma ParseAt(b: Bytes, c: Bytes, start: nat, length: nat, at: nat)
    requires start + 2 <= at && start + 2 <= |b| && c == b[start..] && LengthField(c) == Some((length, at - start))
    ensures ParseFrame(c) == if PayloadAt(b, start, at) + length > |b| then NeedMore
                             else Frame(FrameAt(b, start, length, at), PayloadAt(b, start, at) + length - start)
  {
    if PayloadAt(b, start, at) + length <= |b| {
      FrameOfDrop(b, c, start, length, at);
    }
  }

  lemma SliceOfDrop(b: Bytes, c: Bytes, start: nat, lo: nat, hi: nat)
    requires lo <= hi && start + hi <= |b| && c == b[start..]
    ensures c[lo..hi] == b[start + lo..start + hi]
  {
  }

  method CopyOf(slice: Bytes) returns (copy: array<Byte>)
    ensures fresh(copy) && copy[..] == slice
  {
    copy := new Byte[|slice|](i requires 0 <= i < |slice| => slice[i]);
  }

  method Unmask(payload: array<Byte>, mask: Bytes)
    requires |mask| == 4
    modifies payload
    ensures payload[..] == Masked(old(payload[..]), mask)
  {
    for i := 0 to payload.Length
      invariant forall j :: 0 <= j < i ==> payload[j] == Xor(old(payload[j]), mask[j % 4])
      invariant forall j :: i <= j < payload.Length ==> payload[j] == old(payload[j])
    {
      payload[i] := Xor(payload[i], mask[i % 4]);
    }
  }

  function EncodeWsFrame(payload: Bytes, opcode: nat): Bytes
    requires opcode < 16 && |payload| < 0x1_0000_0000_0000_0000
  {
    if |payload| < 126 then [128 + opcode, |payload|] + payload
    else if |payload| <= 0xFFFF then [128 + opcode, 126] + ToBigEndian(|payload|, 2) + payload
    else [128 + opcode, 127] + ToBigEndian(|payload|, 8) + payload
  }

  /**
   What a client sends, as section 5.3 of RFC 6455 has it: the same header with the mask bit
   set, the masking key, and the payload masked with it. A server frame has no key.
  */
  datatype WireFrame = WireFrame(opcode: nat, payload: Bytes, key: Option<Bytes>)

  ghost predicate OnWire(f: WireFrame) {
    f.opcode < 16 && |f.payload| < 0x1_0000_0000_0000_0000 && (f.key.Some? ==> |f.key.value| == 4)
  }

  ghost function LengthBytes(length: nat): Bytes {
    if length < 126 then [] else if length <= 0xFFFF then ToBigEndian(length, 2) else ToBigEndian(length, 8)
  }

  ghost function Header(f: WireFrame): Bytes
    requires OnWire(f)
  {
    var n := |f.payload|;
    var length := if n < 126 then n else if n <= 0xFFFF then 126 else 127;
    [128 + f.opcode, (if f.key.Some? then 128 else 0) + length] + LengthBytes(n)
  }

  ghost function Body(f: WireFrame): Bytes
    requires OnWire(f)
  {
    if f.key.Some? then f.key.value + Masked(f.payload, f.key.value) else f.payload
  }

  ghost function Wire(f: WireFrame): Bytes
    requires OnWire(f)
  {
    Header(f) + Body(f)
  }

  /** The server's encoder writes exactly the unmasked wire form. */
  lemma ServerFrameIsWire(payload: Bytes, opcode: nat)
    requires opcode < 16 && |payload| < 0x1_0000_0000_0000_0000
    ensures EncodeWsFrame(payload, opcode) == Wire(WireFrame(opcode, payload, None))
  {
  }

  /** The header of a server frame, byte by byte as section 5.2 of RFC 6455 has it. */
  lemma HeaderIs(payload: Bytes, opcode: nat)
    requires opcode < 16 && |payload| < 0x1_0000_0000_0000_0000
    ensures var n, b := |payload|, EncodeWsFrame(payload, opcode);
            && |b| >= 2 && b[0] == 0x80 + opcode
            && if n < 126 then b[1] == n && b[2..] == payload
               else if n < 0x1_0000 then
                 |b| == n + 4 && b[1] == 126 && b[2] == n / 256 && b[3] == n % 256 && b[4..] == payload
               else |b| == n + 10 && b[1] == 127 && NumberAt(b, 2, 8) == n && b[10..] == payload
  {
    if 126 <= |payload| < 0x1_0000 { BigEndianTwo(|payload|); }
    if |payload| >= 0x1_0000 { LongHeader(payload, opcode); }
  }

  lemma LongHeader(payload: Bytes, opcode: nat)
    requires opcode < 16 && 0x1_0000 <= |payload| < 0x1_0000_0000_0000_0000
    ensures |EncodeWsFrame(payload, opcode)| == |payload| + 10
    ensures NumberAt(EncodeWsFrame(payload, opcode), 2, 8) == |payload|
  {
    Widths();
    ReadBehind([128 + opcode, 127], |payload|, 8, payload);
    assert EncodeWsFrame(payload, opcode) == [128 + opcode, 127] + (ToBigEndian(|payload|, 8) + payload);
  }

  lemma LengthWritten(first: Bytes, n: nat, tail: Bytes)
    requires |first| == 2 && n < 0x1_0000_0000_0000_0000
    requires first[1] % 128 == (if n < 126 then n else if n <= 0xFFFF then 126 else 127)
    ensures LengthField(first + (LengthBytes(n) + tail)) == Some((n, 2 + |LengthBytes(n)|))
  {
    Widths();
    if 126 <= n <= 0xFFFF {
      ReadBehind(first, n, 2, tail);
    } else if 0xFFFF < n {
      ReadBehind(first, n, 8, tail);
    }
  }

  lemma ParseHeader(f: WireFrame, tail: Bytes)
    requires OnWire(f)
    ensures var b := Header(f) + tail;
            && b[0] % 16 == f.opcode && (b[1] >= 128 <==> f.key.Some?)
            && LengthField(b) == Some((|f.payload|, |Header(f)|))
  {
    var first := Header(f)[..2];
    LengthWritten(first, |f.payload|, tail);
    assert Header(f) + tail == first + (LengthBytes(|f.payload|) + tail);
  }

  lemma BodyBehind(f: WireFrame, h: Bytes, tail: Bytes)
    requires OnWire(f)
    ensures var b := h + (Body(f) + tail);
            if f.key.Some? then
              |b| >= |h| + 4 + |f.payload| && b[|h|..|h| + 4] == f.key.value
              && b[|h| + 4..|h| + 4 + |f.payload|] == Masked(f.payload, f.key.value)
            else |b| >= |h| + |f.payload| && b[|h|..|h| + |f.payload|] == f.payload
  {
  }

  /** A whole frame at the front of a buffer is parsed back, in every length form, masked or not. */
  lemma ParseWire(f: WireFrame, tail: Bytes)
    requires OnWire(f)
    ensures ParseFrame(Wire(f) + tail) == Frame(WsFrame(f.opcode, f.payload), |Wire(f)|)
  {
    var h, body := Header(f), Body(f);
    assert Wire(f) + tail == h + (body + tail);
    ParseHeader(f, body + tail);
    BodyBehind(f, h, tail);
    if f.key.Some? { MaskTwice(f.payload, f.key.value); }
  }

  lemma ParseLawful()
    ensures Lawful(ParseFrame)
  {
    forall a: Bytes, b: Bytes | ParseFrame(a).Frame? ensures ParseFrame(a + b) == ParseFrame(a) {
      MoreBytes(a, b);
    }
  }

  lemma SliceOfAppend(a: Bytes, b: Bytes, lo: nat, hi: nat)
    requires lo <= hi <= |a|
    ensures (a + b)[lo..hi] == a[lo..hi]
  {
  }

  lemma LengthOfAppend(a: Bytes, b: Bytes)
    requires |a| >= 2 && LengthField(a).Some?
    ensures LengthField(a + b) == LengthField(a)
  {
    if |a| >= 4 { NumberOfAppend(a, b, 2, 2); }
    if |a| >= 10 { NumberOfAppend(a, b, 2, 8); }
  }

  lemma FrameOfAppend(a: Bytes, b: Bytes, length: nat, at: nat)
    requires |a| >= 2 && PayloadAt(a, 0, at) + length <= |a|
    ensures PayloadAt(a + b, 0, at) == PayloadAt(a, 0, at) && FrameAt(a + b, 0, length, at) == FrameAt(a, 0, length, at)
  {
    var start := PayloadAt(a, 0, at);
    SliceOfAppend(a, b, start, start + length);
    if a[1] >= 128 { SliceOfAppend(a, b, at, at + 4); }
  }

  lemma MoreBytes(a: Bytes, b: Bytes)
    requires ParseFrame(a).Frame?
    ensures ParseFrame(a + b) == ParseFrame(a)
  {
    LengthOfAppend(a, b);
    var (length, at) := LengthField(a).value;
    FrameOfAppend(a, b, length, at);
  }

  ghost predicate AllOnWire(fs: seq<WireFrame>) {
    forall i :: 0 <= i < |fs| ==> OnWire(fs[i])
  }

  ghost function Stream(fs: seq<WireFrame>): Bytes
    requires AllOnWire(fs)
  {
    if fs == [] then [] else Wire(fs[0]) + Stream(fs[1..])
  }

  function Contents(fs: seq<WireFrame>): seq<WsFrame> {
    if fs == [] then [] else [WsFrame(fs[0].opcode, fs[0].payload)] + Contents(fs[1..])
  }

  /** Any mix of server and client frames, one behind the other, decodes to what was sent. */
  lemma {:induction false} StreamRoundTrip(fs: seq<WireFrame>)
    requires AllOnWire(fs)
    ensures Decode(ParseFrame, Stream(fs)) == Decoded(Contents(fs), [])
  {
    if fs != [] {
      ParseWire(fs[0], Stream(fs[1..]));
      assert Stream(fs)[|Wire(fs[0])|..] == Stream(fs[1..]);
      StreamRoundTrip(fs[1..]);
    }
  }

  /** Decoding any prefix of such a stream returns a prefix of its frames. */
  lemma StreamPrefix(fs: seq<WireFrame>, a: Bytes)
    requires AllOnWire(fs) && a <= Stream(fs)
    ensures Decode(ParseFrame, a).frames <= Contents(fs)
  {
    var all := Stream(fs);
    ParseLawful();
    StreamRoundTrip(fs);
    PrefixOf(a, all);
    PartIsPrefix(ParseFrame, a, all[|a|..]);
  }

  lemma PrefixOf(a: Bytes, all: Bytes)
    requires a <= all
    ensures a + all[|a|..] == all
  {
  }

  // ----- chunks decoded one by one

  /** The bytes `0`, `n` of them. */
  function Zeros(n: nat): Bytes {
    seq(n, _ => 0)
  }

  /** Two bytes and enough zeros behind them are a frame, whatever the length field asks for. */
  lemma EnoughZeros(r: Bytes, x: Byte) returns (n: nat)
    requires |r| >= 2
    ensures ParseFrame(r + ([x, 0] + Zeros(n))).Frame?
  {
    var few := r + ([x, 0] + Zeros(8));
    var (length, at) := LengthField(few).value;
    n := 8 + length + 4;
    var many := r + ([x, 0] + Zeros(n));
    assert many == few + Zeros(n - 8);
    LengthOfAppend(few, Zeros(n - 8));
  }

  /** The first frame decoded has the opcode of the first byte. */
  lemma FirstOpcode(b: Bytes)
    requires ParseFrame(b).Frame?
    ensures Decode(ParseFrame, b).frames != [] && Decode(ParseFrame, b).frames[0].opcode == b[0] % 16
  {
    ParseLawful();
    DecodeFront(ParseFrame, b, b[ParseFrame(b).size..]);
  }

  lemma DifferentOpcodes(b: Bytes, c: Bytes)
    requires ParseFrame(b).Frame? && ParseFrame(c).Frame? && b[0] % 16 != c[0] % 16
    ensures Decode(ParseFrame, b).frames != Decode(ParseFrame, c).frames
  {
    FirstOpcode(b);
    FirstOpcode(c);
  }

  lemma EmptyFrame(x: Byte, tail: Bytes)
    ensures ParseFrame([x, 0] + tail) == Frame(WsFrame(x % 16, []), 2)
  {
    var b := [x, 0] + tail;
    assert b[0] == x && b[1] == 0 && LengthField(b) == Some((0, 2));
    assert b[2..2 + 0] == [];
    assert FrameAt(b, 0, 0, 2) == WsFrame(x % 16, []);
  }

  lemma OneByteMore(x: Byte)
    ensures Decode(ParseFrame, [x] + [0]).frames != Decode(ParseFrame, [0]).frames
  {
    var b := [x] + [0];
    assert b == [x, 0] + [];
    EmptyFrame(x, []);
    FirstOpcode(b);
    assert |Decode(ParseFrame, b).frames| > 0;
    assert ParseFrame([0]) == NeedMore;
    assert |Decode(ParseFrame, [0]).frames| == 0;
  }

  lemma ZerosMore(r: Bytes, x: Byte, n: nat)
    requires |r| >= 2 && r[0] % 16 != x % 16 && ParseFrame(r + ([x, 0] + Zeros(n))).Frame?
    ensures Decode(ParseFrame, r + ([x, 0] + Zeros(n))).frames != Decode(ParseFrame, [x, 0] + Zeros(n)).frames
  {
    EmptyFrame(x, Zeros(n));
    DifferentOpcodes(r + ([x, 0] + Zeros(n)), [x, 0] + Zeros(n));
  }

  /** Some next chunk tells a dropped rest from no rest: what it completes decodes to another frame. */
  lemma RestMatters(r: Bytes) returns (b: Bytes)
    requires r != [] && ParseFrame(r) == NeedMore
    ensures Decode(ParseFrame, r + b).frames != Decode(ParseFrame, b).frames
  {
    if |r| == 1 {
      b := [0];
      assert r == [r[0]];
      OneByteMore(r[0]);
    } else {
      var x: Byte := if r[0] % 16 == 0 then 1 else 0;
      var n := EnoughZeros(r, x);
      b := [x, 0] + Zeros(n);
      ZerosMore(r, x, n);
    }
  }

  /** Decoding `a` and then `b` by itself finds what decoding `a + b` does. */
  ghost predicate NothingLost(a: Bytes, b: Bytes) {
    Decode(ParseFrame, a + b).frames == Decode(ParseFrame, a).frames + Decode(ParseFrame, b).frames
  }

  /**
   The endpoint decodes chunk by chunk and drops what is left over. That loses nothing, whatever
   comes next, exactly when the chunk ends on a frame boundary.
  */
  lemma BoundaryLosesNothing(a: Bytes)
    ensures Decode(ParseFrame, a).rest == [] <==> forall b :: NothingLost(a, b)
  {
    var d := Decode(ParseFrame, a);
    ParseLawful();
    if d.rest == [] {
      forall b ensures NothingLost(a, b) {
        DecodeAppend(ParseFrame, a, b);
        assert [] + b == b;
      }
    } else {
      RestIsIncomplete(ParseFrame, a);
      var b := RestMatters(d.rest);
      DecodeAppend(ParseFrame, a, b);
      SameTail(d.frames, Decode(ParseFrame, d.rest + b).frames, Decode(ParseFrame, b).frames);
      assert !NothingLost(a, b);
    }
  }

  lemma SameTail<T>(a: seq<T>, b: seq<T>, c: seq<T>)
    ensures a + b == a + c ==> b == c
  {
    assert (a + b)[|a|..] == b && (a + c)[|a|..] == c;
  }

  /** A cut inside a frame does lose it: cut before its last byte, any frame disappears. */
  lemma CutFrameIsLost(f: WireFrame, a: Bytes, b: Bytes)
    requires OnWire(f) && Wire(f) == a + b && |b| == 1
    ensures Decode(ParseFrame, a + b).frames == [WsFrame(f.opcode, f.payload)]
    ensures Decode(ParseFrame, a).frames == [] && Decode(ParseFrame, b).frames == []
  {
    assert Wire(f) + [] == a + b;
    ParseWire(f, []);
    if ParseFrame(a).Frame? { MoreBytes(a, b); }
  }
}
