/** The pub/sub frame: topic (2 bytes, big-endian), type (1 byte), payload. */
module EventFrame {
  import opened Bits

  type Byte = b: int | 0 <= b < 256
  type Bytes = seq<Byte>
  type Topic = t: int | 0 <= t < 0x1_0000

  const REGIST: Byte := 0
  const UNREGIST: Byte := 1
  const DATA: Byte := 2
  const ACK: Byte := 3

  /** A parsed frame; the type byte is cast to the enumeration without a check, so it can hold any value. */
  datatype Frame = Frame(topic: Topic, kind: Byte, payload: Bytes)

  lemma {:induction false} OrDisjoint(a: nat, b: nat, k: nat)
    requires b < Pow2(k)
    ensures Or(a * Pow2(k), b) == a * Pow2(k) + b
  {
    hide Or;
    if k == 0 {
      OrZero(a);
    } else {
      var h := Pow2(k - 1);
      OrDisjoint(a, b / 2, k - 1);
      MulAssociative(a, 2, h);
      OrEven(a * Pow2(k), a * h, b);
    }
  }

  lemma TopicBytes(hi: Byte, lo: Byte)
    ensures Or(hi * Pow2(8), lo) == hi * 256 + lo < 0x1_0000
  {
    assert Pow2(8) == 256;
    OrDisjoint(hi, lo, 8);
  }

  lemma TopicSplit(topic: Topic)
    ensures Shr(topic, 8) == topic / 256 < 256 && And(topic, 0xFF) == topic % 256
  {
    assert Pow2(8) == 256;
    ShrDivides(topic, 8);
    AndMask(topic, 8);
  }

  /** `Frame::parse`; a raw message shorter than three bytes is refused by an assertion in the source. */
  function Parse(raw: Bytes): Frame
    requires |raw| >= 3
  {
    TopicBytes(raw[0], raw[1]);
    Frame(Or(raw[0] * Pow2(8), raw[1]), raw[2], raw[3..])
  }

  /** The bytes of a frame. */
  function Encoded(f: Frame): Bytes {
    TopicSplit(f.topic);
    [Shr(f.topic, 8), And(f.topic, 0xFF), f.kind] + f.payload
  }

  /** `Frame::make`. */
  method Make(topic: Topic, kind: Byte, payload: Bytes) returns (message: Bytes)
    ensures message == Encoded(Frame(topic, kind, payload))
    ensures |message| == 3 + |payload| && Parse(message) == Frame(topic, kind, payload)
  {
    TopicSplit(topic);
    message := [];
    message := message + [Shr(topic, 8)];
    message := message + [And(topic, 0xFF)];
    message := message + [kind];
    message := message + payload;
    ParseEncoded(Frame(topic, kind, payload));
  }

  /** Decoding what was encoded gives the frame back. */
  lemma ParseEncoded(f: Frame)
    ensures Parse(Encoded(f)) == f
  {
    hide Shr, And, Or, Pow2;
    TopicSplit(f.topic);
    TopicBytes(f.topic / 256, f.topic % 256);
    assert Encoded(f)[3..] == f.payload;
  }

  /** Every raw message of at least three bytes is the encoding of what it parses to. */
  lemma EncodedParse(raw: Bytes)
    requires |raw| >= 3
    ensures Encoded(Parse(raw)) == raw
  {
    hide Shr, And, Or, Pow2;
    TopicBytes(raw[0], raw[1]);
    TopicSplit(Parse(raw).topic);
    assert raw == [raw[0], raw[1], raw[2]] + raw[3..];
  }
}
