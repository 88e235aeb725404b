/** The serial output queue (NodeLink.cpp). `write`, the send predicate and the frames
    that completion callbacks queue are an arbitrary script; a finite script stands for
    any moment of an execution. */
module OutputQueue {
  import opened Protocol
  import opened Crc16
  import opened FrameCodec
  import opened FrameTheorems

  /** A queued wire frame and how much of it the kernel has accepted. */
  datatype Pending = Pending(bytes: Bytes, offset: nat)

  /** A completion callback: the frame, its bytes accepted by then, and the argument. */
  datatype Done = Done(bytes: Bytes, accepted: nat, sent: bool)

  datatype Answer = Took(n: nat) | Interrupted | Blocked | Failed

  /** One turn of the flush loop: may the frame still start, what does `write` say, and
      what do the completion callbacks of this turn queue. */
  datatype Round = Round(allowed: bool, answer: Answer, follow: seq<Frame>)

  /** `asked`: frames accepted by `send`, in order; `wire`: bytes accepted by the kernel;
      `broken`: a hard write error has happened. */
  datatype Link = Link(queue: seq<Pending>, asked: seq<Frame>, wire: Bytes, done: seq<Done>, broken: bool)

  const IDLE := Link([], [], [], [], false)

  // ---------------------------------------------------------------- operations

  function Send(l: Link, f: Frame): Link {
    if |f.payload| > PAYLOAD_MAX then l
    else l.(queue := l.queue + [Pending(Encode(f), 0)], asked := l.asked + [f])
  }

  function SendAll(l: Link, fs: seq<Frame>): Link
    decreases |fs|
  {
    if fs == [] then l else SendAll(Send(l, fs[0]), fs[1..])
  }

  function CompleteFront(l: Link, sent: bool, follow: seq<Frame>): Link
    requires l.queue != []
  {
    var head := l.queue[0];
    SendAll(l.(queue := l.queue[1..], done := l.done + [Done(head.bytes, head.offset, sent)]), follow)
  }

  function Fails(queue: seq<Pending>): seq<Done> {
    if queue == [] then [] else [Done(queue[0].bytes, queue[0].offset, false)] + Fails(queue[1..])
  }

  function Discard(l: Link, follow: seq<Frame>): Link {
    SendAll(l.(queue := [], done := l.done + Fails(l.queue), broken := true), follow)
  }

  /** The kernel takes `n` more bytes of the head. */
  function Advance(l: Link, n: nat): Link
    requires l.queue != [] && l.queue[0].offset + n <= |l.queue[0].bytes|
  {
    var head := l.queue[0];
    l.(queue := l.queue[0 := head.(offset := head.offset + n)],
       wire := l.wire + head.bytes[head.offset..head.offset + n])
  }

  /** How much of the rest of a frame an answer of `n` bytes takes. */
  function Taken(head: Pending, n: nat): nat {
    if head.offset + n <= |head.bytes| then n else if head.offset <= |head.bytes| then |head.bytes| - head.offset else 0
  }

  predicate Partial(l: Link) { l.queue != [] ==> l.queue[0].offset <= |l.queue[0].bytes| }

  /** One turn of the loop on a non-empty queue. */
  function Turn(l: Link, r: Round): Link
    requires l.queue != []
  {
    var head := l.queue[0];
    if head.offset == 0 && !r.allowed then CompleteFront(l, false, r.follow)
    else
      match r.answer
      case Took(n) =>
        var k := Taken(head, n);
        if k == 0 then Discard(l, r.follow)
        else
          var m := Advance(l, k);
          if head.offset + k == |head.bytes| then CompleteFront(m, true, r.follow) else m
      case Interrupted => l
      case Blocked => l
      case Failed => Discard(l, r.follow)
  }

  /** Does the loop return after this turn? */
  predicate Stops(l: Link, r: Round)
    requires l.queue != []
  {
    var head := l.queue[0];
    !(head.offset == 0 && !r.allowed)
    && (r.answer == Blocked || r.answer == Failed || (r.answer.Took? && Taken(head, r.answer.n) == 0))
  }

  function Flush(l: Link, script: seq<Round>): Link
    decreases |script|
  {
    if script == [] || l.queue == [] then l
    else
      if Stops(l, script[0]) then Turn(l, script[0]) else Flush(Turn(l, script[0]), script[1..])
  }

  // ----------------------------------------------------------------- invariant

  function Contributed(done: seq<Done>): Bytes
    requires forall d | d in done :: d.accepted <= |d.bytes|
  {
    if done == [] then [] else
      var last := done[|done| - 1];
      assert last in done;
      Contributed(done[..|done| - 1]) + last.bytes[..last.accepted]
  }

  /** The part of the head the kernel already has. */
  function Started(l: Link): Bytes
    requires Partial(l)
  {
    if l.queue == [] then [] else l.queue[0].bytes[..l.queue[0].offset]
  }

  /** Completed and queued frames together are the accepted sends, each once, in order. */
  predicate Lineup(l: Link) {
    && |l.done| + |l.queue| == |l.asked|
    && (forall f | f in l.asked :: |f.payload| <= PAYLOAD_MAX)
    && (forall i :: 0 <= i < |l.done| ==> l.done[i].bytes == Encode(l.asked[i]))
    && (forall j :: 0 <= j < |l.queue| ==> l.queue[j].bytes == Encode(l.asked[|l.done| + j]))
  }

  predicate Offsets(queue: seq<Pending>) {
    && (forall j :: 0 < j < |queue| ==> queue[j].offset == 0)
    && (queue != [] ==> queue[0].offset < |queue[0].bytes|)
  }

  /** A completion says true exactly when the kernel has the whole frame; until a hard
      error, one that says false has cost no byte. */
  predicate Verdicts(done: seq<Done>, broken: bool) {
    forall d | d in done ::
      && d.accepted <= |d.bytes|
      && (d.sent <==> d.accepted == |d.bytes|)
      && (!broken && !d.sent ==> d.accepted == 0)
  }

  predicate Inv(l: Link) {
    && Lineup(l)
    && Offsets(l.queue)
    && Verdicts(l.done, l.broken)
    && l.wire == Contributed(l.done) + Started(l)
  }

  lemma SendInv(l: Link, f: Frame)
    requires Inv(l)
    ensures Inv(Send(l, f))
  {
    if |f.payload| <= PAYLOAD_MAX { SendLineup(l, f); }
  }

  lemma SendLineup(l: Link, f: Frame)
    requires Lineup(l) && |f.payload| <= PAYLOAD_MAX
    ensures Lineup(Send(l, f))
  {}

  lemma {:induction false} SendAllInv(l: Link, fs: seq<Frame>)
    requires Inv(l)
    ensures Inv(SendAll(l, fs))
    decreases |fs|
  {
    if fs != [] {
      SendInv(l, fs[0]);
      SendAllInv(Send(l, fs[0]), fs[1..]);
    }
  }

  lemma ContributedSnoc(done: seq<Done>, d: Done)
    requires forall e | e in done + [d] :: e.accepted <= |e.bytes|
    ensures forall e | e in done :: e.accepted <= |e.bytes|
    ensures Contributed(done + [d]) == Contributed(done) + d.bytes[..d.accepted]
  {
    assert forall e | e in done :: e in done + [d];
    assert (done + [d])[..|done|] == done;
    assert (done + [d])[|done|] == d;
  }

  /** The head may complete once it is wholly taken, or before it was begun. */
  predicate MayComplete(l: Link, sent: bool) {
    && l.queue != []
    && l.queue[0].offset <= |l.queue[0].bytes|
    && 0 < |l.queue[0].bytes|
    && l.queue[0].offset == (if sent then |l.queue[0].bytes| else 0)
    && (forall j :: 0 < j < |l.queue| ==> l.queue[j].offset == 0)
  }

  lemma CompleteInv(l: Link, sent: bool, follow: seq<Frame>)
    requires Lineup(l) && MayComplete(l, sent) && Verdicts(l.done, l.broken)
    requires l.wire == Contributed(l.done) + Started(l)
    ensures Inv(CompleteFront(l, sent, follow))
  {
    var head := l.queue[0];
    var d := Done(head.bytes, head.offset, sent);
    CompleteLineup(l, d);
    CompleteWire(l, sent);
    SettledInv(l.(queue := l.queue[1..], done := l.done + [d]), follow);
  }

  lemma CompleteWire(l: Link, sent: bool)
    requires MayComplete(l, sent) && Verdicts(l.done, l.broken)
    requires l.wire == Contributed(l.done) + Started(l)
    ensures var d := Done(l.queue[0].bytes, l.queue[0].offset, sent);
            Verdicts(l.done + [d], l.broken) && Contributed(l.done + [d]) == l.wire
  {
    var d := Done(l.queue[0].bytes, l.queue[0].offset, sent);
    assert Verdicts(l.done + [d], l.broken);
    ContributedSnoc(l.done, d);
  }

  /** With nothing begun, the wire is what the completed frames cost. */
  lemma SettledInv(l: Link, follow: seq<Frame>)
    requires Lineup(l) && (forall j :: 0 <= j < |l.queue| ==> l.queue[j].offset == 0)
    requires Verdicts(l.done, l.broken) && l.wire == Contributed(l.done)
    ensures Inv(SendAll(l, follow))
  {
    FreshOffsets(l);
    assert Contributed(l.done) + [] == Contributed(l.done);
    SendAllInv(l, follow);
  }

  lemma FreshOffsets(l: Link)
    requires Lineup(l) && forall j :: 0 <= j < |l.queue| ==> l.queue[j].offset == 0
    ensures Offsets(l.queue) && Started(l) == []
  {
    if l.queue != [] { assert l.queue[0].bytes == Encode(l.asked[|l.done|]); }
  }

  lemma CompleteLineup(l: Link, d: Done)
    requires Lineup(l) && l.queue != [] && d.bytes == l.queue[0].bytes
    ensures Lineup(l.(queue := l.queue[1..], done := l.done + [d]))
  {}

  lemma AdvanceLineup(l: Link, n: nat)
    requires Lineup(l) && l.queue != [] && l.queue[0].offset + n <= |l.queue[0].bytes|
    ensures Lineup(Advance(l, n))
  {}

  lemma AdvanceWire(l: Link, n: nat)
    requires l.queue != [] && l.queue[0].offset + n <= |l.queue[0].bytes|
    requires Verdicts(l.done, l.broken) && l.wire == Contributed(l.done) + Started(l)
    ensures Advance(l, n).wire == Contributed(l.done) + Started(Advance(l, n))
  {
    var head := l.queue[0];
    Extends(Contributed(l.done), head.bytes, head.offset, n);
  }

  lemma Extends(wire: Bytes, bytes: Bytes, from: nat, n: nat)
    requires from + n <= |bytes|
    ensures wire + bytes[..from] + bytes[from..from + n] == wire + bytes[..from + n]
  {}

  // --------------------------------------------------------- discarding the queue

  lemma {:induction false} FailsListing(queue: seq<Pending>)
    ensures |Fails(queue)| == |queue|
    ensures forall i :: 0 <= i < |queue| ==> Fails(queue)[i] == Done(queue[i].bytes, queue[i].offset, false)
  {
    if queue != [] { FailsListing(queue[1..]); }
  }

  /** Frames not yet begun add no byte when they fail. */
  lemma {:induction false} UntouchedContributesNothing(done: seq<Done>, more: seq<Done>)
    requires forall d | d in done + more :: d.accepted <= |d.bytes|
    requires forall d | d in more :: d.accepted == 0
    ensures forall d | d in done :: d.accepted <= |d.bytes|
    ensures Contributed(done + more) == Contributed(done)
    decreases |more|
  {
    assert forall d | d in done :: d in done + more;
    if more == [] {
      assert done + more == done;
    } else {
      var front, d := more[..|more| - 1], more[|more| - 1];
      assert done + more == (done + front) + [d];
      ContributedSnoc(done + front, d);
      UntouchedContributesNothing(done, front);
    }
  }

  lemma DiscardWire(l: Link)
    requires Inv(l) && l.queue != []
    ensures Verdicts(l.done + Fails(l.queue), true)
    ensures Contributed(l.done + Fails(l.queue)) == l.wire
  {
    FailsListing(l.queue);
    var first := Fails(l.queue)[0];
    var more := Fails(l.queue)[1..];
    assert Fails(l.queue) == [first] + more;
    assert l.done + Fails(l.queue) == (l.done + [first]) + more;
    QueueUnsent(l);
    assert Verdicts(l.done + Fails(l.queue), true);
    UntouchedContributesNothing(l.done + [first], more);
    ContributedSnoc(l.done, first);
  }

  lemma QueueUnsent(l: Link)
    requires Lineup(l) && Offsets(l.queue)
    ensures forall q | q in l.queue :: q.offset < |q.bytes|
    ensures forall d | d in Fails(l.queue) :: !d.sent && d.accepted < |d.bytes|
  {
    FailsListing(l.queue);
    forall j | 0 <= j < |l.queue| ensures l.queue[j].offset < |l.queue[j].bytes| {
      assert l.queue[j].bytes == Encode(l.asked[|l.done| + j]);
    }
  }

  lemma DiscardInv(l: Link, follow: seq<Frame>)
    requires Inv(l) && l.queue != []
    ensures Inv(Discard(l, follow))
  {
    var m := l.(queue := [], done := l.done + Fails(l.queue), broken := true);
    DiscardWire(l);
    DiscardLineup(l);
    SettledInv(m, follow);
  }

  lemma DiscardLineup(l: Link)
    requires Lineup(l)
    ensures Lineup(l.(queue := [], done := l.done + Fails(l.queue), broken := true))
  {
    FailsListing(l.queue);
    var done := l.done + Fails(l.queue);
    forall i | 0 <= i < |done| ensures done[i].bytes == Encode(l.asked[i]) {
      if i >= |l.done| { assert done[i] == Fails(l.queue)[i - |l.done|]; }
    }
  }

  // ---------------------------------------------------------------- every round

  lemma TurnInv(l: Link, r: Round)
    requires Inv(l) && l.queue != []
    ensures Inv(Turn(l, r))
  {
    var head := l.queue[0];
    if head.offset == 0 && !r.allowed {
      CompleteInv(l, false, r.follow);
    } else if r.answer.Took? {
      var k := Taken(head, r.answer.n);
      if k == 0 {
        DiscardInv(l, r.follow);
      } else {
        AdvanceLineup(l, k);
        AdvanceWire(l, k);
        if head.offset + k == |head.bytes| { CompleteInv(Advance(l, k), true, r.follow); }
      }
    } else if r.answer == Failed {
      DiscardInv(l, r.follow);
    }
  }

  lemma {:induction false} FlushInv(l: Link, script: seq<Round>)
    requires Inv(l)
    ensures Inv(Flush(l, script))
    decreases |script|
  {
    if script != [] && l.queue != [] {
      TurnInv(l, script[0]);
      if !Stops(l, script[0]) { FlushInv(Turn(l, script[0]), script[1..]); }
    }
  }
}
