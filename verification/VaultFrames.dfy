/**
 The vault's wire format: a four-byte big-endian length and that many payload bytes. Payloads
 are JSON texts in the program; here they are opaque bytes.
*/
module VaultFrames {
  import opened Wrappers
  import opened Framing

  const HEADER := 4
  const MAX_PAYLOAD := 0xFFFF_FFFF

  /** None where writing the length throws. */
  function EncodeFrame(payload: Bytes): Option<Bytes> {
    if |payload| > MAX_PAYLOAD then None else Some(ToBigEndian(|payload|, HEADER) + payload)
  }

  function ParseFrame(b: Bytes): Parsed<Bytes> {
    if |b| < HEADER then NeedMore
    else
      var length := NumberAt(b, 0, HEADER);
      if |b| - HEADER < length then NeedMore else Frame(b[HEADER..HEADER + length], HEADER + length)
  }

  method DecodeFrames(buffer: Bytes) returns (messages: seq<Bytes>, rest: Bytes)
    ensures Decoded(messages, rest) == Decode(ParseFrame, buffer)
  {
    var offset := 0;
    messages := [];
    CutNothing(ParseFrame, buffer);
    while |buffer| - offset >= HEADER
      invariant 0 <= offset <= |buffer| && CutUpTo(ParseFrame, buffer, messages, offset)
    {
      var length := NumberAt(buffer, offset, HEADER);
      ParseAt(buffer, offset);
      if |buffer| - offset - HEADER < length {
        break;
      }
      var payload := buffer[offset + HEADER..offset + HEADER + length];
      CutOne(ParseFrame, buffer, messages, offset, payload, offset + HEADER + length);
      messages := messages + [payload];
      offset := offset + HEADER + length;
    }
    CutAll(ParseFrame, buffer, messages, offset);
    rest := buffer[offset..];
  }

  lemma ParseAt(b: Bytes, offset: nat)
    requires offset + HEADER <= |b|
    ensures var length := NumberAt(b, offset, HEADER);
            ParseFrame(b[offset..]) == if |b| - offset - HEADER < length then NeedMore
                                       else Frame(b[offset + HEADER..offset + HEADER + length], HEADER + length)
  {
    var length := NumberAt(b, offset, HEADER);
    NumberOfDrop(b, offset, 0, HEADER);
    if |b| - offset - HEADER >= length {
      assert b[offset..][HEADER..HEADER + length] == b[offset + HEADER..offset + HEADER + length];
    }
  }

  /** The header as `writeUInt32BE` writes it: the most significant byte first. */
  lemma HeaderBytes(payload: Bytes)
    requires |payload| <= 0xFFFF_FFFF
    ensures var n, b := |payload|, EncodeFrame(payload);
            && b.Some? && |b.value| == 4 + n && b.value[4..] == payload
            && b.value[0] == n / 0x100_0000 && b.value[1] == n / 0x1_0000 % 256
            && b.value[2] == n / 256 % 256 && b.value[3] == n % 256
  {
    BigEndianFour(|payload|);
  }

  /** A payload of 4 GiB or more has no header. */
  lemma TooLongForHeader(payload: Bytes)
    ensures EncodeFrame(payload).None? <==> |payload| >= 0x1_0000_0000
  {
  }

  lemma ParseLawful()
    ensures Lawful(ParseFrame)
  {
    forall a: Bytes, b: Bytes | ParseFrame(a).Frame? ensures ParseFrame(a + b) == ParseFrame(a) {
      NumberOfAppend(a, b, 0, HEADER);
      var length := NumberAt(a, 0, HEADER);
      assert (a + b)[HEADER..HEADER + length] == a[HEADER..HEADER + length];
    }
  }

  lemma ParseEncoded(payload: Bytes, tail: Bytes)
    requires |payload| <= MAX_PAYLOAD
    ensures ParseFrame(EncodeFrame(payload).value + tail) == Frame(payload, HEADER + |payload|)
  {
    Widths();
    var b := EncodeFrame(payload).value + tail;
    ReadBehind([], |payload|, HEADER, payload + tail);
    assert b == [] + (ToBigEndian(|payload|, HEADER) + (payload + tail));
    assert b[HEADER..HEADER + |payload|] == payload;
  }

  lemma EncodeParsed(b: Bytes)
    requires ParseFrame(b).Frame?
    ensures EncodeFrame(ParseFrame(b).value) == Some(b[..ParseFrame(b).size])
  {
    Widths();
    ReadThenWrite(b[..HEADER]);
    NumberOfAppend(b[..HEADER], b[HEADER..], 0, HEADER);
    assert b == b[..HEADER] + b[HEADER..];
    assert b[..ParseFrame(b).size] == b[..HEADER] + ParseFrame(b).value;
  }

  ghost predicate Encodable(messages: seq<Bytes>) {
    forall i :: 0 <= i < |messages| ==> |messages[i]| <= MAX_PAYLOAD
  }

  ghost function EncodeAll(messages: seq<Bytes>): Bytes
    requires Encodable(messages)
  {
    if messages == [] then [] else EncodeFrame(messages[0]).value + EncodeAll(messages[1..])
  }

  lemma EncodeCons(m: Bytes, messages: seq<Bytes>, rest: Bytes)
    requires |m| <= MAX_PAYLOAD && Encodable(messages)
    ensures Encodable([m] + messages)
    ensures EncodeAll([m] + messages) + rest == EncodeFrame(m).value + (EncodeAll(messages) + rest)
  {
    assert ([m] + messages)[1..] == messages;
    var frame, tail := EncodeFrame(m).value, EncodeAll(messages);
    assert frame + tail + rest == frame + (tail + rest);
  }

  lemma {:induction false} DecodeEncoded(messages: seq<Bytes>, rest: Bytes)
    requires Encodable(messages) && ParseFrame(rest) == NeedMore
    ensures Decode(ParseFrame, EncodeAll(messages) + rest) == Decoded(messages, rest)
  {
    if messages == [] {
      assert EncodeAll(messages) + rest == rest;
    } else {
      var tail := EncodeAll(messages[1..]) + rest;
      var frame := EncodeFrame(messages[0]).value;
      assert messages == [messages[0]] + messages[1..];
      EncodeCons(messages[0], messages[1..], rest);
      ParseEncoded(messages[0], tail);
      assert (frame + tail)[|frame|..] == tail;
      DecodeEncoded(messages[1..], rest);
    }
  }

  lemma FrameInFront(b: Bytes, size: nat, m: Bytes, messages: seq<Bytes>, rest: Bytes)
    requires size <= |b| && EncodeFrame(m) == Some(b[..size])
    requires Encodable(messages) && EncodeAll(messages) + rest == b[size..]
    ensures Encodable([m] + messages) && EncodeAll([m] + messages) + rest == b
  {
    EncodeCons(m, messages, rest);
  }

  lemma {:induction false} EncodeDecoded(b: Bytes)
    ensures var d := Decode(ParseFrame, b);
            Encodable(d.frames) && EncodeAll(d.frames) + d.rest == b
    decreases |b|
  {
    if ParseFrame(b).Frame? {
      EncodeParsed(b);
      var size := ParseFrame(b).size;
      EncodeDecoded(b[size..]);
      var d := Decode(ParseFrame, b[size..]);
      FrameInFront(b, size, ParseFrame(b).value, d.frames, d.rest);
    } else {
      assert [] + b == b;
    }
  }

  /**
   Decoding finds the messages and the rest exactly when the buffer is those messages encoded
   one behind the other, followed by a rest that is not yet a frame.
  */
  lemma DecodeExactly(b: Bytes, messages: seq<Bytes>, rest: Bytes)
    ensures Decode(ParseFrame, b) == Decoded(messages, rest)
            <==> Encodable(messages) && b == EncodeAll(messages) + rest && ParseFrame(rest) == NeedMore
  {
    EncodeDecoded(b);
    ParseLawful();
    RestIsIncomplete(ParseFrame, b);
    if Encodable(messages) && ParseFrame(rest) == NeedMore {
      DecodeEncoded(messages, rest);
    }
  }

  // ----- a connection that carries its buffer from chunk to chunk

  /** The first of the messages that answers the pending request. */
  function FirstMatch(matches: Bytes -> bool, messages: seq<Bytes>): Option<Bytes> {
    if messages == [] then None
    else if matches(messages[0]) then Some(messages[0])
    else FirstMatch(matches, messages[1..])
  }

  /** It is the first one that matches, and there is none exactly when no message matches. */
  lemma {:induction false} FirstMatchIsFirst(matches: Bytes -> bool, messages: seq<Bytes>, m: Bytes)
    ensures FirstMatch(matches, messages) == Some(m)
            <==> exists i :: 0 <= i < |messages| && messages[i] == m && FirstAt(matches, messages, i)
    ensures FirstMatch(matches, messages) == None <==> forall i :: 0 <= i < |messages| ==> !matches(messages[i])
  {
    if messages != [] {
      var rest := messages[1..];
      FirstMatchIsFirst(matches, rest, m);
      assert forall i :: 0 <= i < |rest| ==> messages[i + 1] == rest[i];
      if matches(messages[0]) {
        assert FirstAt(matches, messages, 0);
      } else {
        assert forall i :: 0 <= i < |rest| ==> (FirstAt(matches, rest, i) <==> FirstAt(matches, messages, i + 1));
      }
    }
  }

  /** Message `i` is the first that matches. */
  ghost predicate FirstAt(matches: Bytes -> bool, messages: seq<Bytes>, i: nat) {
    i < |messages| && matches(messages[i]) && forall j :: 0 <= j < i ==> !matches(messages[j])
  }

  lemma {:induction false} FirstMatchConcat(matches: Bytes -> bool, a: seq<Bytes>, b: seq<Bytes>)
    ensures FirstMatch(matches, a + b)
         == if FirstMatch(matches, a).Some? then FirstMatch(matches, a) else FirstMatch(matches, b)
  {
    if a == [] {
      assert a + b == b;
    } else {
      assert (a + b)[1..] == a[1..] + b;
      FirstMatchConcat(matches, a[1..], b);
    }
  }

  /**
   One end of a vault connection. The daemon handles every message of `received` in order;
   the client settles its promise with `response`, the first message that carries the id of
   its request.
  */
  class Connection {
    const matches: Bytes -> bool
    var buffer: Bytes
    var received: seq<Bytes>
    var response: Option<Bytes>
    ghost var stream: Bytes

    /** Whatever the chunks were, the connection has seen the stream decoded as a whole. */
    ghost predicate Valid()
      reads this
    {
      && Decoded(received, buffer) == Decode(ParseFrame, stream)
      && response == FirstMatch(matches, received)
    }

    constructor (matches: Bytes -> bool)
      ensures Valid() && stream == [] && this.matches == matches
    {
      this.matches := matches;
      buffer, received, response, stream := [], [], None, [];
    }

    method OnData(chunk: Bytes) returns (messages: seq<Bytes>)
      requires Valid()
      modifies this
      ensures Valid() && stream == old(stream) + chunk
      ensures received == old(received) + messages
      ensures old(response).Some? ==> response == old(response)
    {
      ParseLawful();
      DecodeAppend(ParseFrame, stream, chunk);
      var rest;
      messages, rest := DecodeFrames(buffer + chunk);
      buffer := rest;
      FirstMatchConcat(matches, received, messages);
      received := received + messages;
      if response.None? {
        response := FirstMatch(matches, messages);
      }
      stream := stream + chunk;
    }
  }

  /** Feeding the chunks one by one, the rest of each carried to the next. */
  function Feed(chunks: seq<Bytes>): Decoded<Bytes> {
    if chunks == [] then Decoded([], [])
    else
      var before := Feed(chunks[..|chunks| - 1]);
      var d := Decode(ParseFrame, before.rest + chunks[|chunks| - 1]);
      Decoded(before.frames + d.frames, d.rest)
  }

  /** Whatever the chunks, feeding them one by one decodes their concatenation. */
  lemma {:induction false} AnyChunking(chunks: seq<Bytes>)
    ensures Feed(chunks) == Decode(ParseFrame, Flat(chunks))
  {
    if chunks != [] {
      AnyChunking(chunks[..|chunks| - 1]);
      ParseLawful();
      DecodeAppend(ParseFrame, Flat(chunks[..|chunks| - 1]), chunks[|chunks| - 1]);
    }
  }

  /** However a stream of encoded messages is cut into chunks, the messages arrive, in order. */
  lemma MessagesArrive(messages: seq<Bytes>, partial: Bytes, chunks: seq<Bytes>)
    requires Encodable(messages) && ParseFrame(partial) == NeedMore
    requires Flat(chunks) == EncodeAll(messages) + partial
    ensures Feed(chunks) == Decoded(messages, partial)
  {
    AnyChunking(chunks);
    DecodeEncoded(messages, partial);
  }
}
