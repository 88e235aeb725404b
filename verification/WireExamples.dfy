/** Frames byte for byte, as the protocol's documentation prints them. */
module WireExamples {
  import opened Protocol
  import opened Crc16
  import opened FrameCodec

  lemma CrcOfFour(c: bv16, a: Byte, b: Byte, x: Byte, y: Byte, d: bv16)
    requires Step(Step(Step(Step(c, Wide(a)), Wide(b)), Wide(x)), Wide(y)) == d
    ensures Crc(c, [a, b, x, y]) == d
  {
    assert [a, b, x, y] == [a, b] + [x, y];
    CrcConcat(c, [a, b], [x, y]);
    CrcOfTwo(c, a, b);
    CrcOfTwo(Step(Step(c, Wide(a)), Wide(b)), x, y);
  }

  lemma Three(c: bv16, x: Bytes, y: Bytes, z: Bytes)
    ensures Crc(c, x + y + z) == Crc(Crc(Crc(c, x), y), z)
  {
    CrcConcat(c, x + y, z);
    CrcConcat(c, x, y);
  }

  lemma CheckValueFirst()
    ensures Crc(0xFFFF, [0x31, 0x32, 0x33, 0x34]) == 0x30BA
  {
    CrcOfFour(0xFFFF, 0x31, 0x32, 0x33, 0x34, 0x30BA);
  }

  lemma CheckValueMiddle()
    ensures Crc(0x30BA, [0x35, 0x36, 0x37, 0x38]) == 0x37DD
  {
    CrcOfFour(0x30BA, 0x35, 0x36, 0x37, 0x38, 0x37DD);
  }

  lemma CheckValueLast()
    ensures Crc(0x37DD, [0x39]) == 0x4B37
  {
    CrcOfOne(0x37DD, 0x39);
  }

  /** The check value of CRC-16/MODBUS, over the digits 1 to 9. */
  lemma CheckValue()
    ensures Crc(0xFFFF, [0x31, 0x32, 0x33, 0x34, 0x35, 0x36, 0x37, 0x38, 0x39]) == 0x4B37
  {
    CheckValueFirst();
    CheckValueMiddle();
    CheckValueLast();
    Three(0xFFFF, [0x31, 0x32, 0x33, 0x34], [0x35, 0x36, 0x37, 0x38], [0x39]);
    assert [0x31, 0x32, 0x33, 0x34, 0x35, 0x36, 0x37, 0x38, 0x39] == [0x31, 0x32, 0x33, 0x34] + [0x35, 0x36, 0x37, 0x38] + [0x39];
  }

  lemma OpenCheckFirst()
    ensures Crc(0xFFFF, [0x09, 0x23, 0x00, 0x00]) == 0x72F2
  {
    CrcOfFour(0xFFFF, 0x09, 0x23, 0x00, 0x00, 0x72F2);
  }

  lemma OpenCheckMiddle()
    ensures Crc(0x72F2, [0x00, 0x00, 0x00, 0x00]) == 0xA392
  {
    CrcOfFour(0x72F2, 0x00, 0x00, 0x00, 0x00, 0xA392);
  }

  lemma OpenCheckLast()
    ensures Crc(0xA392, [0x00, 0x01]) == 0xD9EC
  {
    CrcOfTwo(0xA392, 0x00, 0x01);
  }

  /** The check value of the OPEN of session 1. */
  lemma OpenCheck()
    ensures Crc(0xFFFF, [0x09, 0x23, 0x00, 0x00, 0x00, 0x00, 0x00, 0x00, 0x00, 0x01]) == 0xD9EC
  {
    OpenCheckFirst();
    OpenCheckMiddle();
    OpenCheckLast();
    Three(0xFFFF, [0x09, 0x23, 0x00, 0x00], [0x00, 0x00, 0x00, 0x00], [0x00, 0x01]);
    assert [0x09, 0x23, 0x00, 0x00, 0x00, 0x00, 0x00, 0x00, 0x00, 0x01] == [0x09, 0x23, 0x00, 0x00] + [0x00, 0x00, 0x00, 0x00] + [0x00, 0x01];
  }

  lemma SessionOne()
    ensures U64Bytes(1) == [0x00, 0x00, 0x00, 0x00, 0x00, 0x00, 0x00, 0x01]
  {
    assert BigEndian(0, 3) == [0, 0, 0];
    assert BigEndian(0, 5) == [0, 0, 0, 0, 0];
    assert BigEndian(0, 7) == [0, 0, 0, 0, 0, 0, 0];
  }

  /** The two bytes of a check value. */
  lemma Halves(c: bv16, lo: Byte, hi: Byte)
    requires Wide(lo) == c & 0xFF && Wide(hi) == c >> 8
    ensures Low(c) == lo && High(c) == hi
  {
    LowIs(c, lo);
    HighIs(c, hi);
  }

  /** A frame without payload. */
  lemma HeartbeatBytes()
    ensures Encode(Frame(0x03, [])) == [0xAA, 0x55, 0x01, 0x03, 0x40, 0x21]
  {
    CrcOfTwo(0xFFFF, 0x01, 0x03);
    assert Body(Frame(0x03, [])) == [0x01, 0x03];
    Halves(0x2140, 0x40, 0x21);
  }

  /** OPEN of session 1. */
  lemma OpenBytes()
    ensures Encode(Frame(SR_OPEN, U64Bytes(1))) == [0xAA, 0x55] + OpenOne() + [0xEC, 0xD9]
  {
    OpenBody();
    OpenCheck();
    Halves(0xD9EC, 0xEC, 0xD9);
    Framed(Frame(SR_OPEN, U64Bytes(1)), OpenOne(), 0xEC, 0xD9);
  }

  function OpenOne(): Bytes { [0x09, 0x23, 0x00, 0x00, 0x00, 0x00, 0x00, 0x00, 0x00, 0x01] }

  lemma OpenBody()
    ensures Body(Frame(SR_OPEN, U64Bytes(1))) == OpenOne()
  {
    SessionOne();
  }

  lemma Framed(f: Frame, body: Bytes, lo: Byte, hi: Byte)
    requires |f.payload| <= PAYLOAD_MAX && Body(f) == body && lo == Low(Crc(INIT, body)) && hi == High(Crc(INIT, body))
    ensures Encode(f) == [0xAA, 0x55] + body + [lo, hi]
  {}

  /** Session 1 accepted. */
  lemma OpenAckBody()
    ensures Body(OpenAckFrame(1, 1, 0)) == [0x12, 0x09, 0x00, 0x00, 0x00, 0x00, 0x00, 0x00, 0x00, 0x01, 0x00, 0x00, 0x00, 0x00, 0x00, 0x00, 0x00, 0x01, 0x00]
  {
    SessionOne();
  }

  /** Number 0 of session 1: set the period to five seconds. */
  lemma CommandBody()
    ensures Body(CommandFrame(Command(1, 0, 0x22, [0x00, 0x05]))) == [0x0D, 0x24, 0x00, 0x00, 0x00, 0x00, 0x00, 0x00, 0x00, 0x01, 0x00, 0x22, 0x00, 0x05]
  {
    SessionOne();
  }

  /** Number 0 received. */
  lemma ReceivedBody()
    ensures Body(ReceivedFrame(1, 0)) == [0x0A, 0x07, 0x00, 0x00, 0x00, 0x00, 0x00, 0x00, 0x00, 0x01, 0x00]
  {
    SessionOne();
  }

  /** Number 0 executed. */
  lemma ResultBody()
    ensures Body(ResultFrame(1, 0, 0x22, [0x00])) == [0x0C, 0x08, 0x00, 0x00, 0x00, 0x00, 0x00, 0x00, 0x00, 0x01, 0x00, 0x22, 0x00]
  {
    SessionOne();
  }

  /** Result 0 acknowledged. */
  lemma ResultAckBody()
    ensures Body(Frame(SR_RESULT_ACK, U64Bytes(1) + [0])) == [0x0A, 0x25, 0x00, 0x00, 0x00, 0x00, 0x00, 0x00, 0x00, 0x01, 0x00]
  {
    SessionOne();
  }
}
