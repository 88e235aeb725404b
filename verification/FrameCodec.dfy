/** The frame layer (edge_frame.c): the encoder, the incremental parser, and a
    whole-buffer reading of a byte stream that the parser is shown to compute. */
module FrameCodec {
  import opened Protocol
  import opened Crc16

  const HDR0: Byte := 0xAA
  const HDR1: Byte := 0x55
  const LEN_MAX := 64
  const FRAME_MAX := 69

  // ------------------------------------------------------------------- encoder

  function Body(f: Frame): (body: Bytes)
    requires |f.payload| <= PAYLOAD_MAX
  {
    [1 + |f.payload|, f.kind] + f.payload
  }

  /** The wire form: header, body, and the body's check value, low byte first. */
  function Encode(f: Frame): (wire: Bytes)
    requires |f.payload| <= PAYLOAD_MAX
    ensures |wire| == |f.payload| + 6
  {
    var check := Crc(INIT, Body(f));
    [HDR0, HDR1] + Body(f) + [Low(check), High(check)]
  }

  // -------------------------------------------------------------------- parser

  datatype Mode = WaitHdr0 | WaitHdr1 | WaitLen | WaitType | ReadPayload | WaitCrcLo | WaitCrcHi

  /** Counters of 32 bits that wrap around. */
  datatype Stats = Stats(ok: nat, lenErr: nat, crcErr: nat, resync: nat)

  function Bump(n: nat, k: nat): nat { (n + k) % 0x1_0000_0000 }

  /** The parser's fields, and the frames its callback has been given. */
  datatype Parse = Parse(mode: Mode, len: Byte, kind: Byte, payload: Bytes, received: Byte, crc: bv16,
                         lo: Byte, hi: Byte, stats: Stats, frames: seq<Frame>)

  predicate Fits(p: Parse) {
    && |p.payload| == PAYLOAD_MAX
    && (p.mode in {WaitType, ReadPayload, WaitCrcLo, WaitCrcHi} ==> 1 <= p.len <= LEN_MAX)
    && (p.mode == ReadPayload ==> p.received < p.len - 1)
  }

  function Reset(p: Parse): Parse {
    p.(mode := WaitHdr0, len := 0, kind := 0, received := 0, crc := INIT, lo := 0, hi := 0)
  }

  function Resync(p: Parse): Parse {
    Reset(p).(stats := p.stats.(resync := Bump(p.stats.resync, 1)))
  }

  function Join(lo: Byte, hi: Byte): bv16 { (Wide(hi) << 8) | Wide(lo) }

  /** The whole trailer is in: hand the frame over, or drop it. */
  function Deliver(p: Parse): Parse
    requires |p.payload| == PAYLOAD_MAX && 1 <= p.len <= LEN_MAX
  {
    if Join(p.lo, p.hi) == p.crc then
      p.(mode := WaitHdr0, stats := p.stats.(ok := Bump(p.stats.ok, 1)),
         frames := p.frames + [Frame(p.kind, p.payload[..p.len - 1])])
    else
      Resync(p.(stats := p.stats.(crcErr := Bump(p.stats.crcErr, 1))))
  }

  function Feed(p: Parse, b: Byte): (q: Parse)
    requires Fits(p)
    ensures Fits(q)
  {
    match p.mode
    case WaitHdr0 => if b == HDR0 then p.(mode := WaitHdr1) else p
    case WaitHdr1 =>
      if b == HDR1 then p.(crc := INIT, mode := WaitLen)
      else if b == HDR0 then p
      else p.(mode := WaitHdr0)
    case WaitLen =>
      if b < 1 || b > LEN_MAX then Resync(p.(stats := p.stats.(lenErr := Bump(p.stats.lenErr, 1))))
      else p.(len := b, crc := Step(p.crc, Wide(b)), mode := WaitType)
    case WaitType =>
      p.(kind := b, crc := Step(p.crc, Wide(b)), received := 0,
         mode := if p.len == 1 then WaitCrcLo else ReadPayload)
    case ReadPayload =>
      p.(payload := p.payload[p.received := b], received := p.received + 1, crc := Step(p.crc, Wide(b)),
         mode := if p.received + 1 >= p.len - 1 then WaitCrcLo else ReadPayload)
    case WaitCrcLo => p.(lo := b, mode := WaitCrcHi)
    case WaitCrcHi => Deliver(p.(hi := b))
  }

  function FeedAll(p: Parse, s: Bytes): (q: Parse)
    requires Fits(p)
    ensures Fits(q)
    decreases |s|
  {
    if s == [] then p else FeedAll(Feed(p, s[0]), s[1..])
  }

  /** However the stream is cut into buffers, the parser ends in the same state. */
  lemma {:induction false} Chunking(p: Parse, x: Bytes, y: Bytes)
    requires Fits(p)
    ensures FeedAll(p, x + y) == FeedAll(FeedAll(p, x), y)
    decreases |x|
  {
    if x == [] {
      assert x + y == y;
    } else {
      assert (x + y)[1..] == x[1..] + y;
      Chunking(Feed(p, x[0]), x[1..], y);
    }
  }

  // ------------------------------------------------------ whole-buffer reading

  /** What a stream holds: its frames, and how many candidates failed. */
  datatype Found = Found(frames: seq<Frame>, lenErr: nat, crcErr: nat)

  predicate Header(s: Bytes) { |s| >= 2 && s[0] == HDR0 && s[1] == HDR1 }

  /** Read a buffer from its first header on. A candidate frame is consumed whole,
      good or bad; a trailing incomplete one yields nothing. */
  function Scan(s: Bytes): Found
    decreases |s|
  {
    if |s| < 3 then Found([], 0, 0)
    else if !Header(s) then Scan(s[1..])
    else if s[2] < 1 || s[2] > LEN_MAX then Scan(s[3..]).(lenErr := Scan(s[3..]).lenErr + 1)
    else if |s| < s[2] + 5 then Found([], 0, 0)
    else if s[..s[2] + 5] == Encode(Carried(s)) then
      Scan(s[s[2] + 5..]).(frames := [Carried(s)] + Scan(s[s[2] + 5..]).frames)
    else Scan(s[s[2] + 5..]).(crcErr := Scan(s[s[2] + 5..]).crcErr + 1)
  }

  /** The frame a complete candidate would carry. */
  function Carried(s: Bytes): (f: Frame)
    requires |s| >= 3 && 1 <= s[2] <= LEN_MAX && |s| >= s[2] + 5
    ensures |f.payload| == s[2] - 1
  {
    Frame(s[3], s[4..s[2] + 3])
  }

  // --------------------------------------------------- the parser computes Scan

  /** `q` is `p` with the findings added. */
  predicate Added(q: Parse, p: Parse, found: Found) {
    && q.frames == p.frames + found.frames
    && q.stats == Stats(Bump(p.stats.ok, |found.frames|), Bump(p.stats.lenErr, found.lenErr),
                        Bump(p.stats.crcErr, found.crcErr), Bump(p.stats.resync, found.lenErr + found.crcErr))
  }

  predicate Counts(p: Parse) {
    && p.stats.ok < 0x1_0000_0000 && p.stats.lenErr < 0x1_0000_0000
    && p.stats.crcErr < 0x1_0000_0000 && p.stats.resync < 0x1_0000_0000
  }

  /** Bytes until the parser hunts for a header again, at most. */
  function Left(p: Parse): nat
    requires Fits(p)
  {
    match p.mode
    case WaitHdr0 => 0
    case WaitHdr1 => 0
    case WaitLen => LEN_MAX + 3
    case WaitType => p.len + 2
    case ReadPayload => p.len + 1 - p.received
    case WaitCrcLo => 2
    case WaitCrcHi => 1
  }

  predicate Inside(p: Parse) { p.mode in {WaitType, ReadPayload, WaitCrcLo, WaitCrcHi} }

  /** An incomplete frame changes nothing outside the frame being read. */
  lemma {:induction false} Incomplete(p: Parse, s: Bytes)
    requires Fits(p) && Inside(p) && |s| < Left(p)
    ensures FeedAll(p, s).frames == p.frames && FeedAll(p, s).stats == p.stats
    decreases |s|
  {
    if s != [] { Incomplete(Feed(p, s[0]), s[1..]); }
  }

  /** The payload bytes fill the buffer in order and run through the check value. */
  lemma {:induction false} PayloadRead(p: Parse, d: Bytes, rest: Bytes)
    requires Fits(p) && p.mode == ReadPayload && |d| == p.len - 1 - p.received
    ensures FeedAll(p, d + rest)
         == FeedAll(p.(mode := WaitCrcLo, received := p.len - 1, crc := Crc(p.crc, d),
                       payload := p.payload[..p.received] + d + p.payload[p.len - 1..]), rest)
    decreases |d|
  {
    var q := Feed(p, d[0]);
    assert (d + rest)[1..] == d[1..] + rest;
    if |d| == 1 {
      assert d[1..] + rest == rest;
      assert p.payload[p.received := d[0]] == p.payload[..p.received] + d + p.payload[p.len - 1..];
    } else {
      PayloadRead(q, d[1..], rest);
      BufferStep(p.payload, p.received, d, p.len - 1);
    }
  }

  lemma BufferStep(buffer: Bytes, i: nat, d: Bytes, n: nat)
    requires 0 < |d| && i + |d| == n <= |buffer|
    ensures buffer[i := d[0]][..i + 1] + d[1..] + buffer[i := d[0]][n..] == buffer[..i] + d + buffer[n..]
  {}

  /** The parser once it holds a whole candidate: fields as the wire gave them. */
  function Loaded(p: Parse, f: Frame, lo: Byte, hi: Byte): (q: Parse)
    requires |p.payload| == PAYLOAD_MAX && |f.payload| <= PAYLOAD_MAX
    ensures |q.payload| == PAYLOAD_MAX && q.len == 1 + |f.payload| && q.payload[..|f.payload|] == f.payload
  {
    p.(mode := WaitCrcHi, len := 1 + |f.payload|, kind := f.kind, received := |f.payload|,
       payload := f.payload + p.payload[|f.payload|..], crc := Crc(INIT, Body(f)), lo := lo, hi := hi)
  }

  lemma HeadRead(p: Parse, len: Byte, kind: Byte, tail: Bytes)
    requires Fits(p) && p.mode == WaitLen && p.crc == INIT && 1 <= len <= LEN_MAX
    ensures FeedAll(p, [len, kind] + tail)
         == FeedAll(p.(len := len, kind := kind, received := 0, crc := Step(Step(INIT, Wide(len)), Wide(kind)),
                       mode := if len == 1 then WaitCrcLo else ReadPayload), tail)
  {
    assert ([len, kind] + tail)[1..] == [kind] + tail;
    assert ([kind] + tail)[1..] == tail;
  }

  /** From the length byte on, a complete candidate reaches the delivery step. */
  lemma CandidateRead(p: Parse, f: Frame, lo: Byte, hi: Byte, rest: Bytes)
    requires Fits(p) && p.mode == WaitLen && p.crc == INIT && |f.payload| <= PAYLOAD_MAX
    ensures FeedAll(p, Body(f) + [lo, hi] + rest) == FeedAll(Deliver(Loaded(p, f, lo, hi)), rest)
  {
    var n := |f.payload|;
    assert Body(f) + [lo, hi] + rest == [1 + n, f.kind] + (f.payload + ([lo, hi] + rest));
    HeadRead(p, 1 + n, f.kind, f.payload + ([lo, hi] + rest));
    BodyCheck(1 + n, f.kind, f.payload);
    if n == 0 {
      assert f.payload + ([lo, hi] + rest) == [lo, hi] + rest;
      assert f.payload == [] && f.payload + p.payload[0..] == p.payload;
      TrailerRead(Loaded(p, f, p.lo, p.hi).(mode := WaitCrcLo), lo, hi, rest);
    } else {
      BufferRead(p, f, [lo, hi] + rest);
      TrailerRead(Loaded(p, f, p.lo, p.hi).(mode := WaitCrcLo), lo, hi, rest);
    }
  }

  lemma BufferRead(p: Parse, f: Frame, rest: Bytes)
    requires Fits(p) && 0 < |f.payload| <= PAYLOAD_MAX
    ensures FeedAll(p.(len := 1 + |f.payload|, kind := f.kind, received := 0, mode := ReadPayload,
                       crc := Step(Step(INIT, Wide(1 + |f.payload|)), Wide(f.kind))), f.payload + rest)
         == FeedAll(Loaded(p, f, p.lo, p.hi).(mode := WaitCrcLo), rest)
  {
    var r := p.(len := 1 + |f.payload|, kind := f.kind, received := 0, mode := ReadPayload,
                crc := Step(Step(INIT, Wide(1 + |f.payload|)), Wide(f.kind)));
    PayloadRead(r, f.payload, rest);
    BodyCheck(1 + |f.payload|, f.kind, f.payload);
    assert r.payload[..0] + f.payload + r.payload[|f.payload|..] == f.payload + p.payload[|f.payload|..];
  }

  lemma BodyCheck(len: Byte, kind: Byte, d: Bytes)
    ensures Crc(Step(Step(INIT, Wide(len)), Wide(kind)), d) == Crc(INIT, [len, kind] + d)
  {
    CrcConcat(INIT, [len, kind], d);
    CrcOfTwo(INIT, len, kind);
  }

  lemma TrailerRead(p: Parse, lo: Byte, hi: Byte, rest: Bytes)
    requires Fits(p) && p.mode == WaitCrcLo
    ensures FeedAll(p, [lo, hi] + rest) == FeedAll(Deliver(p.(mode := WaitCrcHi, lo := lo, hi := hi)), rest)
  {
    assert ([lo, hi] + rest)[1..] == [hi] + rest;
    assert ([hi] + rest)[1..] == rest;
  }

  lemma JoinHalves(c: bv16, lo: bv16, hi: bv16)
    requires lo <= 0xFF && hi <= 0xFF
    ensures (hi << 8) | lo == c <==> lo == c & 0xFF && hi == c >> 8
  {}

  lemma LowIs(c: bv16, b: Byte)
    ensures b == Low(c) <==> Wide(b) == c & 0xFF
  {
    if Wide(b) == c & 0xFF { WideInjective(b, Low(c)); }
  }

  lemma HighIs(c: bv16, b: Byte)
    ensures b == High(c) <==> Wide(b) == c >> 8
  {
    if Wide(b) == c >> 8 { WideInjective(b, High(c)); }
  }

  /** The trailer agrees with the check value exactly when it is its two bytes. */
  lemma JoinIsSplit(c: bv16, lo: Byte, hi: Byte)
    ensures Join(lo, hi) == c <==> lo == Low(c) && hi == High(c)
  {
    LowIs(c, lo);
    HighIs(c, hi);
    JoinParts(c, lo, hi);
  }

  lemma JoinParts(c: bv16, lo: Byte, hi: Byte)
    ensures Join(lo, hi) == c <==> Wide(lo) == c & 0xFF && Wide(hi) == c >> 8
  {
    JoinHalves(c, Wide(lo), Wide(hi));
  }

  /** A candidate's bytes, taken apart. */
  lemma Candidate(s: Bytes)
    requires Header(s) && |s| >= 3 && 1 <= s[2] <= LEN_MAX && |s| >= s[2] + 5
    ensures s == [HDR0, HDR1] + (Body(Carried(s)) + [s[s[2] + 3], s[s[2] + 4]] + s[s[2] + 5..])
    ensures s[..s[2] + 5] == [HDR0, HDR1] + Body(Carried(s)) + [s[s[2] + 3], s[s[2] + 4]]
  {}

  lemma Matches(s: Bytes)
    requires Header(s) && |s| >= 3 && 1 <= s[2] <= LEN_MAX && |s| >= s[2] + 5
    ensures s[..s[2] + 5] == Encode(Carried(s))
       <==> Join(s[s[2] + 3], s[s[2] + 4]) == Crc(INIT, Body(Carried(s)))
  {
    var f := Carried(s);
    var c := Crc(INIT, Body(f));
    Candidate(s);
    JoinIsSplit(c, s[s[2] + 3], s[s[2] + 4]);
    SameTrailer([HDR0, HDR1] + Body(f), s[s[2] + 3], s[s[2] + 4], Low(c), High(c));
  }

  lemma SameTrailer(x: Bytes, a: Byte, b: Byte, c: Byte, d: Byte)
    ensures x + [a, b] == x + [c, d] <==> a == c && b == d
  {
    assert (x + [a, b])[|x|] == a && (x + [a, b])[|x| + 1] == b;
    assert (x + [c, d])[|x|] == c && (x + [c, d])[|x| + 1] == d;
  }

  /** Two header bytes from the hunting state. */
  lemma HeaderRead(p: Parse, s: Bytes)
    requires Fits(p) && p.mode == WaitHdr0 && Header(s)
    ensures FeedAll(p, s) == FeedAll(p.(crc := INIT, mode := WaitLen), s[2..])
  {
    assert s[1..][1..] == s[2..];
  }

  /** A byte that starts no header is skipped, also when it is AA. */
  lemma NoHeader(p: Parse, s: Bytes)
    requires Fits(p) && p.mode == WaitHdr0 && |s| >= 2 && !Header(s)
    ensures FeedAll(p, s) == FeedAll(p, s[1..])
  {
    if s[0] == HDR0 {
      var q := Feed(p, HDR0);
      assert FeedAll(p, s) == FeedAll(q, s[1..]);
      assert FeedAll(q, s[1..]) == FeedAll(Feed(q, s[1]), s[1..][1..]);
      assert FeedAll(p, s[1..]) == FeedAll(Feed(p, s[1]), s[1..][1..]);
    }
  }
}
