/** What the frame layer guarantees about byte streams. */
module FrameTheorems {
  import opened Protocol
  import opened Crc16
  import opened FrameCodec

  function Plus(x: Found, y: Found): Found {
    Found(x.frames + y.frames, x.lenErr + y.lenErr, x.crcErr + y.crcErr)
  }

  lemma AddedTwice(p: Parse, q: Parse, r: Parse, x: Found, y: Found)
    requires Added(q, p, x) && Added(r, q, y)
    ensures Added(r, p, Plus(x, y))
  {
    BumpTwice(p.stats.ok, |x.frames|, |y.frames|);
    BumpTwice(p.stats.lenErr, x.lenErr, y.lenErr);
    BumpTwice(p.stats.crcErr, x.crcErr, y.crcErr);
    BumpTwice(p.stats.resync, x.lenErr + x.crcErr, y.lenErr + y.crcErr);
  }

  lemma BumpTwice(n: nat, a: nat, b: nat)
    ensures Bump(Bump(n, a), b) == Bump(n, a + b)
  {}

  lemma NothingAdded(q: Parse, p: Parse)
    requires Counts(p) && q.frames == p.frames && q.stats == p.stats
    ensures Added(q, p, Found([], 0, 0))
  {}

  lemma OneAdded(q: Parse, p: Parse, f: Frame)
    requires Counts(p) && q.frames == p.frames + [f] && q.stats == p.stats.(ok := Bump(p.stats.ok, 1))
    ensures Counts(q) && Added(q, p, Found([f], 0, 0))
  {}

  lemma OneDropped(q: Parse, p: Parse)
    requires Counts(p) && q.frames == p.frames
    requires q.stats == p.stats.(crcErr := Bump(p.stats.crcErr, 1), resync := Bump(p.stats.resync, 1))
    ensures Counts(q) && Added(q, p, Found([], 0, 1))
  {}

  lemma ShortStream(p: Parse, s: Bytes)
    requires Fits(p) && Counts(p) && p.mode == WaitHdr0 && |s| < 3
    ensures Added(FeedAll(p, s), p, Found([], 0, 0))
  {
    if |s| == 2 {
      var q := Feed(p, s[0]);
      assert FeedAll(p, s) == FeedAll(q, s[1..]);
      assert FeedAll(q, s[1..]) == Feed(q, s[1]);
    } else if |s| == 1 {
      assert FeedAll(p, s) == Feed(p, s[0]);
    }
  }

  lemma BadLength(p: Parse, s: Bytes) returns (q: Parse)
    requires Fits(p) && Counts(p) && p.mode == WaitHdr0 && Header(s) && |s| >= 3
    requires s[2] < 1 || s[2] > LEN_MAX
    ensures Fits(q) && Counts(q) && q.mode == WaitHdr0 && FeedAll(p, s) == FeedAll(q, s[3..])
    ensures Added(q, p, Found([], 1, 0))
  {
    HeaderRead(p, s);
    q := Feed(p.(crc := INIT, mode := WaitLen), s[2]);
    assert s[2..][1..] == s[3..];
  }

  lemma CutShort(p: Parse, s: Bytes)
    requires Fits(p) && Counts(p) && p.mode == WaitHdr0 && Header(s) && |s| >= 3
    requires 1 <= s[2] <= LEN_MAX && |s| < s[2] + 5
    ensures Added(FeedAll(p, s), p, Found([], 0, 0))
  {
    HeaderRead(p, s);
    var q := Feed(p.(crc := INIT, mode := WaitLen), s[2]);
    assert s[2..][1..] == s[3..];
    Incomplete(q, s[3..]);
    NothingAdded(FeedAll(q, s[3..]), p);
  }

  predicate Complete(s: Bytes) { Header(s) && |s| >= 3 && 1 <= s[2] <= LEN_MAX && |s| >= s[2] + 5 }

  /** What one complete candidate adds. */
  function Verdict(s: Bytes): Found
    requires Complete(s)
  {
    if s[..s[2] + 5] == Encode(Carried(s)) then Found([Carried(s)], 0, 0) else Found([], 0, 1)
  }

  lemma CandidateDone(p: Parse, s: Bytes) returns (q: Parse)
    requires Fits(p) && Counts(p) && p.mode == WaitHdr0 && Complete(s)
    ensures Fits(q) && Counts(q) && q.mode == WaitHdr0 && FeedAll(p, s) == FeedAll(q, s[s[2] + 5..])
    ensures Added(q, p, Verdict(s))
  {
    var f, lo, hi := Carried(s), s[s[2] + 3], s[s[2] + 4];
    var w := p.(crc := INIT, mode := WaitLen);
    HeaderRead(p, s);
    Candidate(s);
    assert s[2..] == Body(f) + [lo, hi] + s[s[2] + 5..];
    CandidateRead(w, f, lo, hi, s[s[2] + 5..]);
    Matches(s);
    q := Deliver(Loaded(w, f, lo, hi));
    if s[..s[2] + 5] == Encode(f) { OneAdded(q, p, f); } else { OneDropped(q, p); }
  }

  lemma ScanBadLength(s: Bytes)
    requires Header(s) && |s| >= 3 && (s[2] < 1 || s[2] > LEN_MAX)
    ensures Scan(s) == Plus(Found([], 1, 0), Scan(s[3..]))
  {
    var rest := Scan(s[3..]);
    assert Scan(s) == rest.(lenErr := rest.lenErr + 1);
    assert [] + rest.frames == rest.frames;
  }

  lemma ScanCandidate(s: Bytes)
    requires Complete(s)
    ensures Scan(s) == Plus(Verdict(s), Scan(s[s[2] + 5..]))
  {}

  /** The parser, fed byte by byte, finds exactly what reading the whole buffer finds:
      the same frames in the same order and the same number of each error. */
  lemma {:induction false} ParserIsScan(p: Parse, s: Bytes)
    requires Fits(p) && Counts(p) && p.mode == WaitHdr0
    ensures Added(FeedAll(p, s), p, Scan(s))
    decreases |s|
  {
    if |s| < 3 {
      ShortStream(p, s);
    } else if !Header(s) {
      NoHeader(p, s);
      ParserIsScan(p, s[1..]);
    } else if s[2] < 1 || s[2] > LEN_MAX {
      var q := BadLength(p, s);
      ParserIsScan(q, s[3..]);
      AddedTwice(p, q, FeedAll(p, s), Found([], 1, 0), Scan(s[3..]));
      ScanBadLength(s);
    } else if |s| < s[2] + 5 {
      CutShort(p, s);
    } else {
      var q := CandidateDone(p, s);
      ParserIsScan(q, s[s[2] + 5..]);
      AddedTwice(p, q, FeedAll(p, s), Verdict(s), Scan(s[s[2] + 5..]));
      ScanCandidate(s);
    }
  }

  // ----------------------------------------------------------------- soundness

  /** `frames` are encoded in `s`, in order and without overlap. */
  ghost predicate Segments(s: Bytes, frames: seq<Frame>)
    decreases |frames|
  {
    frames == [] || exists i: nat :: BeginsAt(s, i, frames[0]) && Segments(s[i + |frames[0].payload| + 6..], frames[1..])
  }

  ghost predicate BeginsAt(s: Bytes, i: nat, f: Frame) {
    && |f.payload| <= PAYLOAD_MAX
    && i + |f.payload| + 6 <= |s|
    && s[i..i + |f.payload| + 6] == Encode(f)
  }

  lemma SegmentsAfter(s: Bytes, k: nat, frames: seq<Frame>)
    requires k <= |s| && Segments(s[k..], frames)
    ensures Segments(s, frames)
  {
    if frames != [] {
      var n := |frames[0].payload| + 6;
      var i: nat :| BeginsAt(s[k..], i, frames[0]) && Segments(s[k..][i + n..], frames[1..]);
      Slices(s, k, i, n);
      assert BeginsAt(s, k + i, frames[0]);
    }
  }

  lemma Slices(s: Bytes, k: nat, i: nat, n: nat)
    requires k + i + n <= |s|
    ensures s[k..][i..i + n] == s[k + i..k + i + n] && s[k..][i + n..] == s[k + i + n..]
  {}

  lemma {:induction false} ScanSegments(s: Bytes)
    ensures Segments(s, Scan(s).frames)
    decreases |s|
  {
    if |s| < 3 {
    } else if !Header(s) {
      ScanSegments(s[1..]);
      SegmentsAfter(s, 1, Scan(s).frames);
    } else if s[2] < 1 || s[2] > LEN_MAX {
      ScanSegments(s[3..]);
      SegmentsAfter(s, 3, Scan(s).frames);
    } else if |s| >= s[2] + 5 {
      ScanSegments(s[s[2] + 5..]);
      if s[..s[2] + 5] == Encode(Carried(s)) {
        assert BeginsAt(s, 0, Carried(s));
        assert Scan(s).frames[0] == Carried(s) && Scan(s).frames[1..] == Scan(s[s[2] + 5..]).frames;
        assert s[0 + |Carried(s).payload| + 6..] == s[s[2] + 5..];
      } else {
        SegmentsAfter(s, s[2] + 5, Scan(s).frames);
      }
    }
  }

  /** A freshly initialised parser; its payload buffer holds whatever it held. */
  function Fresh(buffer: Bytes): (p: Parse)
    requires |buffer| == PAYLOAD_MAX
    ensures Fits(p) && Counts(p)
  {
    Parse(WaitHdr0, 0, 0, buffer, 0, INIT, 0, 0, Stats(0, 0, 0, 0), [])
  }

  /** On any stream, what is delivered was encoded in it, in order, without overlap. */
  lemma DeliversOnlyEncodedFrames(buffer: Bytes, s: Bytes)
    requires |buffer| == PAYLOAD_MAX
    ensures Segments(s, FeedAll(Fresh(buffer), s).frames)
  {
    ParserIsScan(Fresh(buffer), s);
    ScanSegments(s);
    assert [] + Scan(s).frames == Scan(s).frames;
  }

  // -------------------------------------------------------------- completeness

  /** No header starts inside the noise. */
  predicate Quiet(noise: Bytes) { forall i :: 0 < i < |noise| ==> !(noise[i - 1] == HDR0 && noise[i] == HDR1) }

  lemma EncodedFirst(f: Frame, rest: Bytes)
    requires |f.payload| <= PAYLOAD_MAX
    ensures Scan(Encode(f) + rest) == Plus(Found([f], 0, 0), Scan(rest))
  {
    var s := Encode(f) + rest;
    assert s[2] == 1 + |f.payload| && s[3] == f.kind;
    assert s[4..s[2] + 3] == f.payload;
    assert s[..s[2] + 5] == Encode(f);
    assert s[s[2] + 5..] == rest;
  }

  lemma {:induction false} NoiseSkipped(noise: Bytes, f: Frame, rest: Bytes)
    requires Quiet(noise) && |f.payload| <= PAYLOAD_MAX
    ensures Scan(noise + Encode(f) + rest) == Plus(Found([f], 0, 0), Scan(rest))
    decreases |noise|
  {
    var s := noise + Encode(f) + rest;
    if noise == [] {
      assert s == Encode(f) + rest;
      EncodedFirst(f, rest);
    } else {
      assert s[1..] == noise[1..] + Encode(f) + rest;
      NoiseSkipped(noise[1..], f, rest);
    }
  }

  lemma {:induction false} NoiseOnly(noise: Bytes)
    requires Quiet(noise)
    ensures Scan(noise) == Found([], 0, 0)
    decreases |noise|
  {
    if |noise| >= 3 { NoiseOnly(noise[1..]); }
  }

  /** Frames as a sender writes them, with noise before each. */
  datatype Item = Item(noise: Bytes, frame: Frame)

  predicate Sendable(item: Item) { Quiet(item.noise) && |item.frame.payload| <= PAYLOAD_MAX }

  function Wire(items: seq<Item>): Bytes
    requires forall i :: 0 <= i < |items| ==> Sendable(items[i])
  {
    if items == [] then [] else assert Sendable(items[0]); items[0].noise + Encode(items[0].frame) + Wire(items[1..])
  }

  function Frames(items: seq<Item>): seq<Frame> {
    if items == [] then [] else [items[0].frame] + Frames(items[1..])
  }

  lemma Regroup(a: Bytes, b: Bytes, c: Bytes, d: Bytes)
    ensures (a + b + c) + d == a + b + (c + d)
  {}

  lemma {:induction false} WireScanned(items: seq<Item>, rest: Bytes)
    requires forall i :: 0 <= i < |items| ==> Sendable(items[i])
    ensures Scan(Wire(items) + rest) == Plus(Found(Frames(items), 0, 0), Scan(rest))
  {
    if items == [] {
      assert Wire(items) + rest == rest;
    } else {
      var more := Wire(items[1..]) + rest;
      Regroup(items[0].noise, Encode(items[0].frame), Wire(items[1..]), rest);
      NoiseSkipped(items[0].noise, items[0].frame, more);
      WireScanned(items[1..], rest);
    }
  }

  function Flat(chunks: seq<Bytes>): Bytes { if chunks == [] then [] else chunks[0] + Flat(chunks[1..]) }

  function FeedChunks(p: Parse, chunks: seq<Bytes>): Parse
    requires Fits(p)
    decreases |chunks|
  {
    if chunks == [] then p else FeedChunks(FeedAll(p, chunks[0]), chunks[1..])
  }

  lemma {:induction false} ChunksAreOneStream(p: Parse, chunks: seq<Bytes>)
    requires Fits(p)
    ensures FeedChunks(p, chunks) == FeedAll(p, Flat(chunks))
    decreases |chunks|
  {
    if chunks != [] {
      Chunking(p, chunks[0], Flat(chunks[1..]));
      ChunksAreOneStream(FeedAll(p, chunks[0]), chunks[1..]);
    }
  }

  /** Every frame sent between stretches of noise arrives, in order and once, with no
      error counted, however the stream is cut into chunks. */
  lemma AllFramesArrive(p: Parse, items: seq<Item>, noise: Bytes, chunks: seq<Bytes>)
    requires Fits(p) && Counts(p) && p.mode == WaitHdr0
    requires Quiet(noise) && forall i :: 0 <= i < |items| ==> Sendable(items[i])
    requires Flat(chunks) == Wire(items) + noise
    ensures FeedChunks(p, chunks).frames == p.frames + Frames(items)
    ensures FeedChunks(p, chunks).stats == p.stats.(ok := Bump(p.stats.ok, |Frames(items)|))
  {
    ChunksAreOneStream(p, chunks);
    NoisyWire(items, noise);
    ParserIsScan(p, Wire(items) + noise);
    OnlyFrames(FeedAll(p, Wire(items) + noise), p, Frames(items));
  }

  lemma NoisyWire(items: seq<Item>, noise: Bytes)
    requires Quiet(noise) && forall i :: 0 <= i < |items| ==> Sendable(items[i])
    ensures Scan(Wire(items) + noise) == Found(Frames(items), 0, 0)
  {
    WireScanned(items, noise);
    NoiseOnly(noise);
    assert Frames(items) + [] == Frames(items);
  }

  lemma OnlyFrames(q: Parse, p: Parse, frames: seq<Frame>)
    requires Counts(p) && Added(q, p, Found(frames, 0, 0))
    ensures q.frames == p.frames + frames
    ensures q.stats == p.stats.(ok := Bump(p.stats.ok, |frames|))
  {}

  // ---------------------------------------------------------------- corruption

  lemma TrailerDecides(c: bv16, d: bv16)
    requires Low(c) == Low(d) && High(c) == High(d)
    ensures c == d
  {
    JoinIsSplit(c, Low(c), High(c));
    JoinIsSplit(d, Low(c), High(c));
  }

  lemma EncodeParts(f: Frame)
    requires |f.payload| <= PAYLOAD_MAX
    ensures Encode(f)[2..|f.payload| + 4] == Body(f)
    ensures Encode(f)[|f.payload| + 4] == Low(Crc(INIT, Body(f)))
    ensures Encode(f)[|f.payload| + 5] == High(Crc(INIT, Body(f)))
  {}

  lemma BodyByteMatters(f: Frame, g: Frame, k: nat, b: Byte)
    requires |f.payload| == |g.payload| <= PAYLOAD_MAX && 3 <= k < |f.payload| + 4 && b != Encode(f)[k]
    ensures Encode(g) != Encode(f)[k := b]
  {
    var n := |f.payload|;
    var x := Encode(f)[k := b];
    EncodeParts(f);
    EncodeParts(g);
    assert x[2..n + 4] == Body(f)[k - 2 := b];
    OneByteChanges(INIT, Body(f), k - 2, b);
    if x[n + 4..] == Encode(g)[n + 4..] {
      assert x[n + 4..][0] == Encode(g)[n + 4] && x[n + 4..][1] == Encode(g)[n + 5];
      TrailerDecides(Crc(INIT, Body(f)), Crc(INIT, Body(g)));
    }
  }

  lemma TrailerByteMatters(f: Frame, g: Frame, k: nat, b: Byte)
    requires |f.payload| == |g.payload| <= PAYLOAD_MAX && |f.payload| + 4 <= k < |Encode(f)| && b != Encode(f)[k]
    ensures Encode(g) != Encode(f)[k := b]
  {
    var n := |f.payload|;
    EncodeParts(f);
    EncodeParts(g);
    assert Encode(f)[k := b][2..n + 4] == Body(f);
    if Body(g) == Body(f) { assert Encode(g)[k] == Encode(f)[k]; }
  }

  /** Another frame's encoding never differs from this one's in a single byte after
      the length. */
  lemma NoNearEncoding(f: Frame, g: Frame, k: nat, b: Byte)
    requires |f.payload| == |g.payload| <= PAYLOAD_MAX && 3 <= k < |Encode(f)| && b != Encode(f)[k]
    ensures Encode(g) != Encode(f)[k := b]
  {
    if k < |f.payload| + 4 { BodyByteMatters(f, g, k, b); } else { TrailerByteMatters(f, g, k, b); }
  }

  lemma AlteredIsDropped(f: Frame, k: nat, b: Byte, rest: Bytes)
    requires |f.payload| <= PAYLOAD_MAX && 3 <= k < |Encode(f)| && b != Encode(f)[k]
    ensures Scan(Encode(f)[k := b] + rest) == Plus(Found([], 0, 1), Scan(rest))
  {
    var x := Encode(f)[k := b];
    var s := x + rest;
    assert x[0] == HDR0 && x[1] == HDR1 && x[2] == 1 + |f.payload|;
    assert s[..s[2] + 5] == x && s[s[2] + 5..] == rest;
    NoNearEncoding(f, Carried(s), k, b);
    ScanCandidate(s);
  }

  /** Alter any one TYPE, payload or CRC byte of an encoded frame in any way: nothing is
      delivered for it, one CRC error is counted, and the rest reads as if alone. */
  lemma OneAlteredByteIsCaught(p: Parse, f: Frame, k: nat, b: Byte, rest: Bytes)
    requires Fits(p) && Counts(p) && p.mode == WaitHdr0
    requires |f.payload| <= PAYLOAD_MAX && 3 <= k < |Encode(f)| && b != Encode(f)[k]
    ensures Added(FeedAll(p, Encode(f)[k := b] + rest), p, Plus(Found([], 0, 1), Scan(rest)))
  {
    ParserIsScan(p, Encode(f)[k := b] + rest);
    AlteredIsDropped(f, k, b, rest);
  }

  /** After a reset, whatever was half read, the stream is read as if from its start: the
      frames and errors added are exactly those the new stream holds by itself. */
  lemma ResetForgets(p: Parse, s: Bytes)
    requires Fits(p) && Counts(p)
    ensures Fits(Reset(p)) && Added(FeedAll(Reset(p), s), p, Scan(s))
  {
    ParserIsScan(Reset(p), s);
  }

  // ------------------------------------------------------------ resynchronising

  predicate Hunting(p: Parse) { p.mode == WaitHdr0 || p.mode == WaitHdr1 }

  lemma LeftShrinks(p: Parse, b: Byte)
    requires Fits(p) && !Hunting(p)
    ensures Left(Feed(p, b)) < Left(p)
  {}

  /** From any state, whatever the bytes, the parser hunts for a header again after at
      most 67 of them. */
  lemma {:induction false} HuntsAgain(p: Parse, s: Bytes) returns (k: nat)
    requires Fits(p) && |s| >= Left(p)
    ensures k <= Left(p) <= 67 && Hunting(FeedAll(p, s[..k]))
    decreases |s|
  {
    if Hunting(p) {
      k := 0;
    } else {
      LeftShrinks(p, s[0]);
      k := HuntsAgain(Feed(p, s[0]), s[1..]);
      assert s[..k + 1][1..] == s[1..][..k];
      k := k + 1;
    }
  }

  /** The bound is met: a longest frame keeps the parser busy for all but the last byte. */
  lemma BoundIsTight(p: Parse, s: Bytes)
    requires Fits(p) && p.mode == WaitLen && 0 < |s| < 67 && s[0] == LEN_MAX
    ensures !Hunting(FeedAll(p, s))
  {
    StaysInside(Feed(p, s[0]), s[1..]);
  }

  lemma {:induction false} StaysInside(p: Parse, s: Bytes)
    requires Fits(p) && Inside(p) && |s| < Left(p)
    ensures Inside(FeedAll(p, s))
    decreases |s|
  {
    if s != [] { StaysInside(Feed(p, s[0]), s[1..]); }
  }
}
