/** The wire vocabulary shared by the gateway and the node: byte types, message
    numbers, limits, and the payload layouts of the selective-repeat messages. */
module Protocol {

  type Byte = x: int | 0 <= x < 256
  type Bytes = seq<Byte>
  type U64 = x: int | 0 <= x < 0x1_0000_0000_0000_0000

  const U64_MAX: U64 := 0xFFFF_FFFF_FFFF_FFFF

  const PAYLOAD_MAX := 63
  const ARGS_MAX := 53
  const RESULT_MAX := 53
  const WINDOW := 8
  const POOL := 16
  const MAX_RETRY := 3
  const ACK_TIMEOUT := 500
  const RESULT_TTL := 5000
  const COMMAND_LIFETIME := 4000
  const RESULT_TIMEOUT := 10000

  const SR_RECEIVED: Byte := 0x07
  const SR_RESULT: Byte := 0x08
  const SR_OPEN_ACK: Byte := 0x09
  const QUERY_LIGHT: Byte := 0x20
  const QUERY_TH: Byte := 0x21
  const SET_PERIOD: Byte := 0x22
  const SR_OPEN: Byte := 0x23
  const SR_COMMAND: Byte := 0x24
  const SR_RESULT_ACK: Byte := 0x25

  const RC_OK: Byte := 0
  const RC_BAD_PARAM: Byte := 1
  const RC_UNSUPPORTED: Byte := 2
  const RC_BUSY: Byte := 3

  datatype Frame = Frame(kind: Byte, payload: Bytes)

  /** A command as the business layer sees it, identified by (session, num). */
  datatype Command = Command(session: U64, num: Byte, kind: Byte, args: Bytes)

  // ---------------------------------------------------------------- big-endian

  function Pow256(n: nat): (r: nat)
    ensures r > 0
  {
    if n == 0 then 1 else 256 * Pow256(n - 1)
  }

  function BigEndian(v: nat, n: nat): (p: Bytes)
    ensures |p| == n
  {
    if n == 0 then [] else BigEndian(v / 256, n - 1) + [v % 256]
  }

  function Value(p: Bytes): nat {
    if p == [] then 0 else 256 * Value(p[..|p| - 1]) + p[|p| - 1]
  }

  lemma {:induction false} ValueOfBigEndian(v: nat, n: nat)
    requires v < Pow256(n)
    ensures Value(BigEndian(v, n)) == v
  {
    if n > 0 {
      ValueOfBigEndian(v / 256, n - 1);
      assert BigEndian(v, n)[..n - 1] == BigEndian(v / 256, n - 1);
    }
  }

  lemma {:induction false} BigEndianOfValue(p: Bytes)
    ensures Value(p) < Pow256(|p|)
    ensures BigEndian(Value(p), |p|) == p
  {
    if p != [] {
      var q := p[..|p| - 1];
      BigEndianOfValue(q);
      assert Value(p) / 256 == Value(q) && Value(p) % 256 == p[|p| - 1];
    }
  }

  lemma Pow256At8()
    ensures Pow256(8) == U64_MAX + 1
  {
    assert Pow256(2) == 0x1_0000;
    assert Pow256(4) == 0x1_0000_0000;
    assert Pow256(6) == 0x1_0000_0000_0000;
  }

  function U64Bytes(v: U64): (p: Bytes)
    ensures |p| == 8 && Value(p) == v
  {
    Pow256At8();
    ValueOfBigEndian(v, 8);
    BigEndian(v, 8)
  }

  /** The session number every selective-repeat payload starts with. */
  function SessionOf(p: Bytes): (s: U64)
    requires |p| >= 8
    ensures U64Bytes(s) == p[..8]
  {
    Pow256At8();
    BigEndianOfValue(p[..8]);
    Value(p[..8])
  }

  /** Reading back what was written, whatever follows it. */
  lemma SessionRoundTrip(s: U64, rest: Bytes)
    ensures SessionOf(U64Bytes(s) + rest) == s
  {
    assert (U64Bytes(s) + rest)[..8] == U64Bytes(s);
  }

  /** The shift-and-or reader; eight bytes never overflow 64 bits. */
  method ReadU64(p: Bytes) returns (v: U64)
    requires |p| >= 8
    ensures v == SessionOf(p)
  {
    v := 0;
    for i := 0 to 8
      invariant 0 <= v < Pow256(i) && v == Value(p[..i])
    {
      assert p[..i + 1][..i] == p[..i];
      Pow256Grows(i + 1);
      v := (v * 256) % (U64_MAX + 1) + p[i];
    }
  }

  lemma Pow256Grows(n: nat)
    requires n <= 8
    ensures Pow256(n) <= U64_MAX + 1
  {
    Pow256At8();
    Pow256Monotone(n, 8);
  }

  lemma Pow256Monotone(m: nat, n: nat)
    requires m <= n
    ensures Pow256(m) <= Pow256(n)
    decreases n
  {
    if m < n { Pow256Monotone(m, n - 1); }
  }

  /** The writer fills eight bytes from the right, shifting the value down. */
  method WriteU64(buf: array<Byte>, off: nat, v: U64)
    requires off + 8 <= buf.Length
    modifies buf
    ensures buf[..] == old(buf[..off]) + U64Bytes(v) + old(buf[off + 8..])
  {
    var w: int := v;
    for i := 0 to 8
      invariant w >= 0
      invariant buf[..off] == old(buf[..off])
      invariant buf[off + 8..] == old(buf[off + 8..])
      invariant BigEndian(w, 8 - i) + buf[off + 8 - i..off + 8] == BigEndian(v, 8)
    {
      ghost var tail := buf[off + 8 - i..off + 8];
      buf[off + 7 - i] := w % 256;
      assert buf[off + 7 - i..off + 8] == [w % 256] + tail;
      assert BigEndian(w, 8 - i) == BigEndian(w / 256, 7 - i) + [w % 256];
      w := w / 256;
    }
    assert buf[..] == buf[..off] + buf[off..off + 8] + buf[off + 8..];
    assert BigEndian(w, 0) + buf[off..off + 8] == buf[off..off + 8];
  }

  // ------------------------------------------------------------------ payloads

  function OpenAckFrame(asked: U64, high: U64, rc: Byte): Frame {
    Frame(SR_OPEN_ACK, U64Bytes(asked) + U64Bytes(high) + [rc])
  }

  function CommandFrame(c: Command): Frame {
    Frame(SR_COMMAND, U64Bytes(c.session) + [c.num, c.kind] + c.args)
  }

  function ReceivedFrame(s: U64, num: Byte): Frame { Frame(SR_RECEIVED, U64Bytes(s) + [num]) }

  function ResultFrame(s: U64, num: Byte, kind: Byte, result: Bytes): Frame {
    Frame(SR_RESULT, U64Bytes(s) + [num, kind] + result)
  }

  /** Any payload of ten or more bytes splits uniquely into its four fields. */
  lemma BodyFields(s: U64, num: Byte, kind: Byte, body: Bytes)
    ensures var p := U64Bytes(s) + [num, kind] + body;
            |p| == 10 + |body| && SessionOf(p) == s && p[8] == num && p[9] == kind && p[10..] == body
  {
    var p := U64Bytes(s) + [num, kind] + body;
    assert p == U64Bytes(s) + ([num, kind] + body);
    SessionRoundTrip(s, [num, kind] + body);
  }
}
