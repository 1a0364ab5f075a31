/** Length-prefixed messages on a byte stream: the send buffer and the header-then-payload receive loop. */
module Framing {
  import opened EventFrame

  const WORD: nat := 0x1_0000_0000

  function Radix(k: nat): nat {
    if k == 0 then 1 else 256 * Radix(k - 1)
  }

  /** The low k bytes of n, least significant first. */
  function LittleEndian(n: nat, k: nat): (h: Bytes)
    ensures |h| == k
  {
    if k == 0 then [] else [n % 256] + LittleEndian(n / 256, k - 1)
  }

  function ValueOf(h: Bytes): (n: nat)
    ensures n < Radix(|h|)
  {
    if h == [] then 0 else h[0] + 256 * ValueOf(h[1..])
  }

  lemma {:induction false} ValueOfLittleEndian(n: nat, k: nat)
    requires n < Radix(k)
    ensures ValueOf(LittleEndian(n, k)) == n
  {
    if k > 0 {
      ValueOfLittleEndian(n / 256, k - 1);
      assert LittleEndian(n, k)[1..] == LittleEndian(n / 256, k - 1);
    }
  }

  lemma {:induction false} LittleEndianOfValue(h: Bytes)
    ensures LittleEndian(ValueOf(h), |h|) == h
  {
    if h != [] {
      LittleEndianOfValue(h[1..]);
      assert h == [h[0]] + h[1..];
    }
  }

  /** The four bytes of a 32-bit size as memcpy lays them out on a little-endian host. */
  function Header(size: nat): (h: Bytes)
    ensures |h| == 4
  {
    LittleEndian(size, 4)
  }

  function SizeOf(h: Bytes): (n: nat)
    requires |h| == 4
    ensures n < WORD
  {
    assert Radix(4) == WORD;
    ValueOf(h)
  }

  lemma HeaderRoundTrip(size: nat)
    requires size < WORD
    ensures SizeOf(Header(size)) == size
  {
    assert Radix(4) == WORD;
    ValueOfLittleEndian(size, 4);
  }

  lemma HeaderOfSize(h: Bytes)
    requires |h| == 4
    ensures Header(SizeOf(h)) == h
  {
    LittleEndianOfValue(h);
  }

  /** What `send` writes for one message; the size is cast to 32 bits. */
  function Wire(data: Bytes): Bytes {
    Header(|data| % WORD) + data
  }

  method Send(data: Bytes) returns (buffer: array<Byte>)
    ensures fresh(buffer) && buffer[..] == Wire(data)
  {
    buffer := new Byte[4 + |data|];
    var payloadSize := |data| % WORD;
    var header := Header(payloadSize);
    for i := 0 to 4
      invariant buffer[..i] == header[..i]
    {
      buffer[i] := header[i];
    }
    for i := 0 to |data|
      invariant buffer[..4] == header && buffer[4..4 + i] == data[..i]
    {
      buffer[4 + i] := data[i];
    }
    assert buffer[..] == buffer[..4] + buffer[4..4 + |data|];
  }

  /** The whole messages at the front of a stream. */
  function Messages(stream: Bytes): seq<Bytes>
    decreases |stream|
  {
    if |stream| < 4 || |stream| < 4 + SizeOf(stream[..4]) then []
    else
      var end := 4 + SizeOf(stream[..4]);
      [stream[4..end]] + Messages(stream[end..])
  }

  /** What is left of the stream behind the last whole message. */
  function Rest(stream: Bytes): Bytes
    decreases |stream|
  {
    if |stream| < 4 || |stream| < 4 + SizeOf(stream[..4]) then stream
    else Rest(stream[4 + SizeOf(stream[..4])..])
  }

  function WireAll(messages: seq<Bytes>): Bytes {
    if messages == [] then [] else Wire(messages[0]) + WireAll(messages[1..])
  }

  ghost predicate Short(messages: seq<Bytes>) {
    forall i :: 0 <= i < |messages| ==> |messages[i]| < WORD
  }

  lemma SplitFront(a: Bytes, b: Bytes, n: nat)
    requires n <= |a|
    ensures (a + b)[..n] == a[..n] && (a + b)[n..] == a[n..] + b
  {
  }

  /** Bytes that arrive later only add messages behind those already complete. */
  lemma {:induction false} MessagesAppend(a: Bytes, b: Bytes)
    ensures Messages(a + b) == Messages(a) + Messages(Rest(a) + b)
    ensures Rest(a + b) == Rest(Rest(a) + b)
    decreases |a|
  {
    hide Header, SizeOf;
    if |a| >= 4 && |a| >= 4 + SizeOf(a[..4]) {
      var end := 4 + SizeOf(a[..4]);
      SplitFront(a, b, 4);
      SplitFront(a, b, end);
      assert (a + b)[4..end] == a[4..end];
      MessagesAppend(a[end..], b);
    }
  }

  lemma OneMessage(data: Bytes, rest: Bytes)
    requires |data| < WORD
    ensures Messages(Wire(data) + rest) == [data] + Messages(rest) && Rest(Wire(data) + rest) == Rest(rest)
  {
    hide Header, SizeOf;
    var s := Wire(data) + rest;
    assert s[..4] == Header(|data|);
    HeaderRoundTrip(|data|);
    assert s[4..4 + |data|] == data && s[4 + |data|..] == rest;
  }

  /** The stream of any list of messages shorter than 2^32 bytes splits into exactly that list. */
  lemma {:induction false} MessagesOfWire(messages: seq<Bytes>)
    requires Short(messages)
    ensures Messages(WireAll(messages)) == messages && Rest(WireAll(messages)) == []
  {
    hide Header, SizeOf;
    if messages != [] {
      OneMessage(messages[0], WireAll(messages[1..]));
      MessagesOfWire(messages[1..]);
    }
  }

  /** A truncated stream yields a prefix of the list. */
  lemma TruncatedStream(messages: seq<Bytes>, n: nat)
    requires Short(messages) && n <= |WireAll(messages)|
    ensures Messages(WireAll(messages)[..n]) <= messages
  {
    hide Header, SizeOf;
    var s := WireAll(messages);
    var a, b := s[..n], s[n..];
    assert s == a + b;
    MessagesOfWire(messages);
    MessagesAppend(a, b);
  }

  /** A single message survives exactly when its size fits the header. */
  lemma MessageSurvivesIffShort(data: Bytes)
    ensures Messages(Wire(data)) == [data] <==> |data| < WORD
  {
    hide Header, SizeOf;
    var s := Wire(data);
    if |data| < WORD {
      OneMessage(data, []);
      assert s + [] == s;
    } else {
      assert s[..4] == Header(|data| % WORD);
      HeaderRoundTrip(|data| % WORD);
      var size := |data| % WORD;
      assert Messages(s)[0] == s[4..4 + size];
    }
  }

  /** The re-arming receive loop of one socket; `delivered` is what the handler has been given. */
  class Receiver {
    var inPayload: bool
    var size: nat
    var buffer: Bytes
    var delivered: seq<Bytes>
    ghost var stream: Bytes

    /** The bytes of the read in progress, with the header it follows. */
    ghost function Pending(): Bytes
      reads this
      requires size < WORD
    {
      if inPayload then Header(size) + buffer else buffer
    }

    ghost predicate Valid()
      reads this
    {
      && size < WORD
      && (if inPayload then |buffer| < size else |buffer| < 4)
      && delivered == Messages(stream) && Pending() == Rest(stream)
    }

    constructor ()
      ensures Valid() && stream == [] && delivered == []
    {
      inPayload, size, buffer, delivered, stream := false, 0, [], [], [];
    }

    /** One byte arrives; a read that is complete runs its handler, and a read of nothing is complete at once. */
    method OnByte(b: Byte)
      requires Valid()
      modifies this
      ensures Valid() && stream == old(stream) + [b]
    {
      hide Header, SizeOf, Messages, Rest;
      ghost var before := Pending();
      MessagesAppend(stream, [b]);
      stream := stream + [b];
      buffer := buffer + [b];
      if !inPayload && |buffer| == 4 {
        size := SizeOf(buffer);
        HeaderOfSize(buffer);
        inPayload, buffer := true, [];
      }
      assert size < WORD && Pending() == before + [b];
      PendingMessages(inPayload, size, buffer);
      if inPayload && |buffer| == size {
        delivered := delivered + [buffer];
        inPayload, buffer := false, [];
      }
    }

    /** A chunk of any size arrives. */
    method OnChunk(chunk: Bytes)
      requires Valid()
      modifies this
      ensures Valid() && stream == old(stream) + chunk
    {
      for i := 0 to |chunk|
        invariant Valid() && stream == old(stream) + chunk[..i]
      {
        OnByte(chunk[i]);
      }
      assert chunk[..|chunk|] == chunk;
    }
  }

  /** What a read in progress contributes: nothing until it is complete. */
  lemma PendingMessages(inPayload: bool, size: nat, buffer: Bytes)
    requires size < WORD && if inPayload then |buffer| <= size else |buffer| < 4
    ensures var p := if inPayload then Header(size) + buffer else buffer;
      if inPayload && |buffer| == size then Messages(p) == [buffer] && Rest(p) == []
      else Messages(p) == [] && Rest(p) == p
  {
    hide Header, SizeOf;
    if inPayload {
      HeaderRoundTrip(size);
      assert (Header(size) + buffer)[..4] == Header(size);
      if |buffer| == size {
        assert (Header(size) + buffer)[4..4 + size] == buffer;
        assert (Header(size) + buffer)[4 + size..] == [];
      }
    }
  }

  function Concat(chunks: seq<Bytes>): Bytes {
    if chunks == [] then [] else Concat(chunks[..|chunks| - 1]) + chunks[|chunks| - 1]
  }

  /** However the stream of a list of messages is cut into chunks, the handler is given exactly that list. */
  method DeliverAll(messages: seq<Bytes>, chunks: seq<Bytes>) returns (delivered: seq<Bytes>)
    requires Short(messages) && Concat(chunks) <= WireAll(messages)
    ensures delivered <= messages
    ensures Concat(chunks) == WireAll(messages) ==> delivered == messages
  {
    var receiver := new Receiver();
    for i := 0 to |chunks|
      invariant receiver.Valid() && fresh(receiver) && receiver.stream == Concat(chunks[..i])
    {
      receiver.OnChunk(chunks[i]);
      assert chunks[..i + 1][..i] == chunks[..i];
    }
    assert chunks[..|chunks|] == chunks;
    delivered := receiver.delivered;
    var s := WireAll(messages);
    MessagesOfWire(messages);
    TruncatedStream(messages, |Concat(chunks)|);
    assert s[..|Concat(chunks)|] == Concat(chunks);
  }

  // ---------- frames through the whole wire ----------

  function EncodeFrames(frames: seq<Frame>): seq<Bytes> {
    seq(|frames|, i requires 0 <= i < |frames| => Encoded(frames[i]))
  }

  function ParseAll(raws: seq<Bytes>): seq<Frame>
    requires forall i :: 0 <= i < |raws| ==> |raws[i]| >= 3
  {
    seq(|raws|, i requires 0 <= i < |raws| => Parse(raws[i]))
  }

  ghost predicate Sendable(frames: seq<Frame>) {
    forall i :: 0 <= i < |frames| ==> |frames[i].payload| + 3 < WORD
  }

  /** Frames that are made, sent, cut and received anywhere come out as the same frames, or a prefix of them if the stream stops early. */
  lemma FramesSurvive(frames: seq<Frame>, n: nat)
    requires Sendable(frames) && n <= |WireAll(EncodeFrames(frames))|
    ensures var raws := Messages(WireAll(EncodeFrames(frames))[..n]);
      && (forall i :: 0 <= i < |raws| ==> |raws[i]| >= 3)
      && ParseAll(raws) <= frames
      && (n == |WireAll(EncodeFrames(frames))| ==> ParseAll(raws) == frames)
  {
    hide Header, SizeOf;
    var encoded := EncodeFrames(frames);
    var s := WireAll(encoded);
    forall i | 0 <= i < |encoded|
      ensures |encoded[i]| < WORD && |encoded[i]| >= 3 && Parse(encoded[i]) == frames[i]
    {
      ParseEncoded(frames[i]);
    }
    TruncatedStream(encoded, n);
    MessagesOfWire(encoded);
    assert n == |s| ==> s[..n] == s;
  }
}
