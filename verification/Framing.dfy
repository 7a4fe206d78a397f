/**
 Length-delimited framing over byte streams, shared by the vault protocol and the WebSocket
 endpoint: big-endian lengths, and the loop that cuts frames off the front of a buffer until
 what is left is not a whole frame.
*/
module Framing {
  import opened StableSort

  type Byte = b: int | 0 <= b < 256

  type Bytes = seq<Byte>

  /** What a frame parser finds at the front of a buffer. */
  datatype Parsed<+T> = NeedMore | Frame(value: T, size: nat)

  datatype Decoded<+T> = Decoded(frames: seq<T>, rest: Bytes)

  function Decode<T>(parse: Bytes -> Parsed<T>, b: Bytes): Decoded<T>
    decreases |b|
  {
    match parse(b)
    case NeedMore => Decoded([], b)
    case Frame(value, size) =>
      if 0 < size <= |b| then
        var d := Decode(parse, b[size..]);
        Decoded([value] + d.frames, d.rest)
      else Decoded([], b)
  }

  /** A frame is cut from the bytes present, and more bytes behind it do not change it. */
  ghost predicate Lawful<T(!new)>(parse: Bytes -> Parsed<T>) {
    && (forall b :: parse(b).Frame? ==> 0 < parse(b).size <= |b|)
    && forall a, b {:trigger parse(a + b)} :: parse(a).Frame? ==> parse(a + b) == parse(a)
  }

  lemma DropAppend(a: Bytes, b: Bytes, n: nat)
    requires n <= |a|
    ensures (a + b)[n..] == a[n..] + b
  {
  }

  /** Decoding a buffer with a frame in front: the frame, and what the bytes behind it, `tail`, decode to. */
  lemma DecodeFront<T(!new)>(parse: Bytes -> Parsed<T>, b: Bytes, tail: Bytes)
    requires parse(b).Frame? && 0 < parse(b).size <= |b| && tail == b[parse(b).size..]
    ensures var d := Decode(parse, tail); Decode(parse, b) == Decoded([parse(b).value] + d.frames, d.rest)
  {
  }

  /**
   Chunk independence: decoding `a + b` at once is decoding `a`, keeping its rest, and
   decoding that rest together with `b`.
  */
  lemma {:induction false} DecodeAppend<T(!new)>(parse: Bytes -> Parsed<T>, a: Bytes, b: Bytes)
    requires Lawful(parse)
    ensures var d := Decode(parse, a);
            var e := Decode(parse, d.rest + b);
            Decode(parse, a + b) == Decoded(d.frames + e.frames, e.rest)
    decreases |a|
  {
    if parse(a).Frame? {
      var tail := a[parse(a).size..];
      assert parse(a + b) == parse(a);
      DropAppend(a, b, parse(a).size);
      DecodeFront(parse, a, tail);
      DecodeFront(parse, a + b, tail + b);
      DecodeAppend(parse, tail, b);
      var d := Decode(parse, tail);
      Associates([parse(a).value], d.frames, Decode(parse, d.rest + b).frames);
    }
  }

  /** Decoding a part of a stream finds the frames at its front. */
  lemma PartIsPrefix<T(!new)>(parse: Bytes -> Parsed<T>, a: Bytes, b: Bytes)
    requires Lawful(parse)
    ensures Decode(parse, a).frames <= Decode(parse, a + b).frames
  {
    DecodeAppend(parse, a, b);
  }

  /** What is left over never starts with a whole frame. */
  lemma {:induction false} RestIsIncomplete<T(!new)>(parse: Bytes -> Parsed<T>, b: Bytes)
    requires Lawful(parse)
    ensures parse(Decode(parse, b).rest) == NeedMore
    decreases |b|
  {
    if parse(b).Frame? {
      RestIsIncomplete(parse, b[parse(b).size..]);
    }
  }

  /** The decoding loop at `offset`: what it has cut so far, and what it would still cut. */
  ghost predicate CutUpTo<T(!new)>(parse: Bytes -> Parsed<T>, b: Bytes, frames: seq<T>, offset: nat)
    requires offset <= |b|
  {
    var d := Decode(parse, b[offset..]);
    Decode(parse, b) == Decoded(frames + d.frames, d.rest)
  }

  lemma CutNothing<T(!new)>(parse: Bytes -> Parsed<T>, b: Bytes)
    ensures CutUpTo(parse, b, [], 0)
  {
    assert b[0..] == b;
    assert [] + Decode(parse, b).frames == Decode(parse, b).frames;
  }

  lemma CutOne<T(!new)>(parse: Bytes -> Parsed<T>, b: Bytes, frames: seq<T>, offset: nat, value: T, next: nat)
    requires offset < next <= |b| && CutUpTo(parse, b, frames, offset)
    requires parse(b[offset..]) == Frame(value, next - offset)
    ensures CutUpTo(parse, b, frames + [value], next)
  {
    assert b[offset..][next - offset..] == b[next..];
    var d := Decode(parse, b[next..]);
    assert frames + ([value] + d.frames) == frames + [value] + d.frames;
  }

  lemma CutAll<T(!new)>(parse: Bytes -> Parsed<T>, b: Bytes, frames: seq<T>, offset: nat)
    requires offset <= |b| && CutUpTo(parse, b, frames, offset) && parse(b[offset..]).NeedMore?
    ensures Decode(parse, b) == Decoded(frames, b[offset..])
  {
    assert frames + [] == frames;
  }

  function Flat(chunks: seq<Bytes>): Bytes {
    if chunks == [] then [] else Flat(chunks[..|chunks| - 1]) + chunks[|chunks| - 1]
  }

  // ----- big-endian lengths

  function Pow256(n: nat): nat {
    if n == 0 then 1 else 256 * Pow256(n - 1)
  }

  /** The big-endian number in the `width` bytes of `b` from `at` on. */
  function NumberAt(b: Bytes, at: nat, width: nat): nat
    requires at + width <= |b|
  {
    if width == 0 then 0 else NumberAt(b, at, width - 1) * 256 + b[at + width - 1]
  }

  function ToBigEndian(n: nat, width: nat): (b: Bytes)
    ensures |b| == width
  {
    if width == 0 then [] else ToBigEndian(n / 256, width - 1) + [n % 256]
  }

  lemma {:induction false} NumberOfDrop(b: Bytes, start: nat, at: nat, width: nat)
    requires start + at + width <= |b|
    ensures NumberAt(b[start..], at, width) == NumberAt(b, start + at, width)
  {
    if width > 0 { NumberOfDrop(b, start, at, width - 1); }
  }

  lemma {:induction false} NumberOfAppend(a: Bytes, b: Bytes, at: nat, width: nat)
    requires at + width <= |a|
    ensures NumberAt(a + b, at, width) == NumberAt(a, at, width)
  {
    if width > 0 { NumberOfAppend(a, b, at, width - 1); }
  }

  lemma {:induction false} WriteThenRead(n: nat, width: nat)
    requires n < Pow256(width)
    ensures NumberAt(ToBigEndian(n, width), 0, width) == n
  {
    if width > 0 {
      WriteThenRead(n / 256, width - 1);
      NumberOfAppend(ToBigEndian(n / 256, width - 1), [n % 256], 0, width - 1);
    }
  }

  /** A number written behind `before` is read there. */
  lemma ReadBehind(before: Bytes, n: nat, width: nat, after: Bytes)
    requires n < Pow256(width)
    ensures NumberAt(before + (ToBigEndian(n, width) + after), |before|, width) == n
  {
    var b := before + (ToBigEndian(n, width) + after);
    NumberOfDrop(b, |before|, 0, width);
    assert b[|before|..] == ToBigEndian(n, width) + after;
    NumberOfAppend(ToBigEndian(n, width), after, 0, width);
    WriteThenRead(n, width);
  }

  lemma NumberOfLast(init: Bytes, last: Byte)
    ensures NumberAt(init + [last], 0, |init| + 1) == NumberAt(init, 0, |init|) * 256 + last
  {
    NumberOfAppend(init, [last], 0, |init|);
  }

  lemma DivideBack(n: nat, last: Byte)
    ensures (n * 256 + last) / 256 == n && (n * 256 + last) % 256 == last
  {
  }

  lemma {:induction false} ReadThenWrite(b: Bytes)
    ensures NumberAt(b, 0, |b|) < Pow256(|b|)
    ensures ToBigEndian(NumberAt(b, 0, |b|), |b|) == b
  {
    if b != [] {
      var init, last := b[..|b| - 1], b[|b| - 1];
      ReadThenWrite(init);
      SplitLast(b);
      NumberOfLast(init, last);
      DivideBack(NumberAt(init, 0, |init|), last);
    }
  }

  lemma BigEndianFour(n: nat)
    requires n < 0x1_0000_0000
    ensures ToBigEndian(n, 4) == [n / 0x100_0000, n / 0x1_0000 % 256, n / 256 % 256, n % 256]
  {
    assert n / 256 / 256 == n / 0x1_0000 && n / 256 / 256 / 256 == n / 0x100_0000;
    assert ToBigEndian(n / 0x100_0000, 1) == [] + [n / 0x100_0000 % 256];
    assert ToBigEndian(n / 0x1_0000, 2) == ToBigEndian(n / 0x100_0000, 1) + [n / 0x1_0000 % 256];
    assert ToBigEndian(n / 256, 3) == ToBigEndian(n / 0x1_0000, 2) + [n / 256 % 256];
  }

  lemma BigEndianTwo(n: nat)
    requires n < 0x1_0000
    ensures ToBigEndian(n, 2) == [n / 256, n % 256]
  {
    assert ToBigEndian(n / 256, 1) == [] + [n / 256 % 256];
  }

  lemma Widths()
    ensures Pow256(2) == 0x1_0000 && Pow256(4) == 0x1_0000_0000 && Pow256(8) == 0x1_0000_0000_0000_0000
  {
    assert Pow256(1) == 256;
    assert Pow256(2) == 0x1_0000;
    assert Pow256(3) == 0x100_0000;
    assert Pow256(4) == 0x1_0000_0000;
    assert Pow256(5) == 0x100_0000_0000;
    assert Pow256(6) == 0x1_0000_0000_0000;
    assert Pow256(7) == 0x100_0000_0000_0000;
  }
}
