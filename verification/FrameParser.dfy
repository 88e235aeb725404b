/** edge_frame.c as it runs: the encoder filling a caller's buffer, and the parser
    object whose fields change with every byte. */
module FrameParser {
  import opened Protocol
  import opened Crc16
  import opened FrameCodec

  /** Returns the frame length; 0, with `out` untouched, when the payload is too long. */
  method EncodeInto(kind: Byte, payload: Bytes, out: array<Byte>) returns (n: nat)
    requires out.Length >= FRAME_MAX
    modifies out
    ensures |payload| > PAYLOAD_MAX ==> n == 0 && out[..] == old(out[..])
    ensures |payload| <= PAYLOAD_MAX ==> n == |payload| + 6
    ensures |payload| <= PAYLOAD_MAX ==> out[..] == Encode(Frame(kind, payload)) + old(out[..])[n..]
  {
    if |payload| > PAYLOAD_MAX { return 0; }
    var len: Byte := 1 + |payload|;
    var crc := WriteHead(len, kind, out);
    crc := CopyPayload(payload, out, crc);
    CrcConcat(INIT, [len, kind], payload);
    n := 4 + |payload|;
    WriteTrailer(crc, out, n);
    n := n + 2;
    Assembled(old(out[..]), [HDR0, HDR1, len, kind], payload, Low(crc), High(crc));
    assert [HDR0, HDR1, len, kind] + payload == [HDR0, HDR1] + ([len, kind] + payload);
  }

  method WriteHead(len: Byte, kind: Byte, out: array<Byte>) returns (crc: bv16)
    requires out.Length >= 4
    modifies out
    ensures out[..] == [HDR0, HDR1, len, kind] + old(out[..])[4..]
    ensures crc == Crc(INIT, [len, kind])
  {
    out[0], out[1], out[2], out[3] := HDR0, HDR1, len, kind;
    crc := CheckHead(len, kind);
  }

  method WriteTrailer(crc: bv16, out: array<Byte>, n: nat)
    requires n + 2 <= out.Length
    modifies out
    ensures out[..] == old(out[..])[..n] + [Low(crc), High(crc)] + old(out[..])[n + 2..]
  {
    out[n] := Low(crc);
    out[n + 1] := High(crc);
  }

  lemma Assembled(was: Bytes, head: Bytes, payload: Bytes, lo: Byte, hi: Byte)
    requires |head| == 4 && |payload| + 6 <= |was|
    ensures var x := head + was[4..];
            var y := x[..4] + payload + x[4 + |payload|..];
            y[..4 + |payload|] + [lo, hi] + y[6 + |payload|..] == head + payload + [lo, hi] + was[6 + |payload|..]
  {}

  /** The payload loop: copy each byte behind the head and run it through the check value. */
  method CopyPayload(payload: Bytes, out: array<Byte>, start: bv16) returns (crc: bv16)
    requires 4 + |payload| <= out.Length
    modifies out
    ensures out[..] == old(out[..])[..4] + payload + old(out[..])[4 + |payload|..]
    ensures crc == Crc(start, payload)
  {
    crc := start;
    for i := 0 to |payload|
      invariant out[..] == old(out[..])[..4] + payload[..i] + old(out[..])[4 + i..]
      invariant Crc(crc, payload[i..]) == Crc(start, payload)
    {
      UpdateIsStep(crc, Wide(payload[i]));
      assert payload[i..][0] == payload[i] && payload[i..][1..] == payload[i + 1..];
      out[4 + i] := payload[i];
      crc := Update(crc, Wide(payload[i]));
    }
    assert payload[..|payload|] == payload;
  }

  method CheckHead(len: Byte, kind: Byte) returns (crc: bv16)
    ensures crc == Crc(INIT, [len, kind])
  {
    CrcOfTwo(INIT, len, kind);
    UpdateIsStep(INIT, Wide(len));
    UpdateIsStep(Step(INIT, Wide(len)), Wide(kind));
    crc := Update(INIT, Wide(len));
    crc := Update(crc, Wide(kind));
  }

  class Parser {
    var mode: Mode
    var len: Byte
    var kind: Byte
    const payload: array<Byte>
    var received: Byte
    var crc: bv16
    var lo: Byte
    var hi: Byte
    var ok: nat
    var lenErr: nat
    var crcErr: nat
    var resync: nat
    ghost var frames: seq<Frame>

    ghost function State(): Parse
      reads this, payload
    {
      Parse(mode, len, kind, payload[..], received, crc, lo, hi, Stats(ok, lenErr, crcErr, resync), frames)
    }

    /** The payload buffer is not cleared. */
    constructor (buffer: array<Byte>)
      requires buffer.Length == PAYLOAD_MAX
      ensures payload == buffer && Fits(State())
      ensures State() == Parse(WaitHdr0, 0, 0, buffer[..], 0, INIT, 0, 0, Stats(0, 0, 0, 0), [])
    {
      payload := buffer;
      mode, len, kind, received, crc, lo, hi := WaitHdr0, 0, 0, 0, INIT, 0, 0;
      ok, lenErr, crcErr, resync := 0, 0, 0, 0;
      frames := [];
    }

    /** Drops a half-read frame; counters and delivered frames stay. */
    method ResetParser()
      modifies this
      ensures State() == Reset(old(State()))
    {
      mode, len, kind, received, crc, lo, hi := WaitHdr0, 0, 0, 0, INIT, 0, 0;
    }

    method ResyncParser()
      modifies this
      ensures State() == Resync(old(State()))
    {
      ResetParser();
      resync := (resync + 1) % 0x1_0000_0000;
    }

    method DeliverFrame()
      requires payload.Length == PAYLOAD_MAX && 1 <= len <= LEN_MAX
      modifies this
      ensures State() == Deliver(old(State()))
    {
      if Join(lo, hi) == crc {
        ok := (ok + 1) % 0x1_0000_0000;
        frames := frames + [Frame(kind, payload[..len - 1])];
        mode := WaitHdr0;
      } else {
        crcErr := (crcErr + 1) % 0x1_0000_0000;
        ResyncParser();
      }
    }

    method FeedByte(b: Byte)
      requires Fits(State())
      modifies this, payload
      ensures State() == Feed(old(State()), b)
    {
      match mode {
        case WaitHdr0 =>
          if b == HDR0 { mode := WaitHdr1; }
        case WaitHdr1 =>
          if b == HDR1 {
            crc := INIT;
            mode := WaitLen;
          } else if b != HDR0 {
            mode := WaitHdr0;
          }
        case WaitLen =>
          FeedLength(b);
        case WaitType =>
          kind := b;
          CrcByte(b);
          received := 0;
          mode := if len == 1 then WaitCrcLo else ReadPayload;
        case ReadPayload =>
          payload[received] := b;
          received := received + 1;
          CrcByte(b);
          if received >= len - 1 { mode := WaitCrcLo; }
        case WaitCrcLo =>
          lo := b;
          mode := WaitCrcHi;
        case WaitCrcHi =>
          hi := b;
          DeliverFrame();
      }
    }

    method FeedLength(b: Byte)
      requires Fits(State()) && mode == WaitLen
      modifies this
      ensures State() == Feed(old(State()), b)
    {
      if b < 1 || b > LEN_MAX {
        lenErr := (lenErr + 1) % 0x1_0000_0000;
        ResyncParser();
      } else {
        len := b;
        CrcByte(b);
        mode := WaitType;
      }
    }

    /** The code looks the byte up in the table. */
    method CrcByte(b: Byte)
      modifies this`crc
      ensures crc == Step(old(crc), Wide(b))
    {
      UpdateIsStep(crc, Wide(b));
      crc := Update(crc, Wide(b));
    }

    method FeedBuffer(data: Bytes)
      requires Fits(State())
      modifies this, payload
      ensures State() == FeedAll(old(State()), data)
    {
      for i := 0 to |data|
        invariant Fits(State())
        invariant FeedAll(State(), data[i..]) == FeedAll(old(State()), data)
      {
        assert data[i..][0] == data[i] && data[i..][1..] == data[i + 1..];
        FeedByte(data[i]);
      }
    }
  }
}
