/** What the kernel receives, over every run of sends and flushes. */
module OutputTheorems {
  import opened Protocol
  import opened FrameCodec
  import opened FrameTheorems
  import opened OutputQueue

  datatype Event = Ask(frame: Frame) | Writable(script: seq<Round>)

  function After(events: seq<Event>): (l: Link)
    ensures Inv(l)
  {
    if events == [] then IDLE else
      var l := After(events[..|events| - 1]);
      match events[|events| - 1]
      case Ask(f) => SendInv(l, f); Send(l, f)
      case Writable(script) => FlushInv(l, script); Flush(l, script)
  }

  /** The frames whose completion said true, in order. */
  function Delivered(done: seq<Done>, asked: seq<Frame>): seq<Frame>
    requires |done| <= |asked|
  {
    if done == [] then [] else
      var n := |done| - 1;
      Delivered(done[..n], asked) + if done[n].sent then [asked[n]] else []
  }

  function Encoded(frames: seq<Frame>): Bytes
    requires forall f | f in frames :: |f.payload| <= PAYLOAD_MAX
  {
    if frames == [] then [] else
      var n := |frames| - 1;
      assert frames[n] in frames;
      Encoded(frames[..n]) + Encode(frames[n])
  }

  predicate Agrees(done: seq<Done>, asked: seq<Frame>) {
    && |done| <= |asked|
    && (forall f | f in asked :: |f.payload| <= PAYLOAD_MAX)
    && (forall i :: 0 <= i < |done| ==> done[i].bytes == Encode(asked[i]))
    && Verdicts(done, false)
  }

  lemma {:induction false} DeliveredFit(done: seq<Done>, asked: seq<Frame>)
    requires |done| <= |asked| && forall f | f in asked :: |f.payload| <= PAYLOAD_MAX
    ensures forall f | f in Delivered(done, asked) :: |f.payload| <= PAYLOAD_MAX
  {
    if done != [] { DeliveredFit(done[..|done| - 1], asked); }
  }

  /** Without a hard error, completed frames cost exactly the bytes of those sent. */
  lemma {:induction false} OnlyDeliveredCost(done: seq<Done>, asked: seq<Frame>)
    requires Agrees(done, asked)
    ensures forall f | f in Delivered(done, asked) :: |f.payload| <= PAYLOAD_MAX
    ensures Contributed(done) == Encoded(Delivered(done, asked))
  {
    DeliveredFit(done, asked);
    if done != [] {
      var n := |done| - 1;
      FrontAgrees(done, asked);
      OnlyDeliveredCost(done[..n], asked);
      LastCost(done, asked);
    }
  }

  lemma FrontAgrees(done: seq<Done>, asked: seq<Frame>)
    requires Agrees(done, asked) && done != []
    ensures Agrees(done[..|done| - 1], asked)
  {}

  lemma LastCost(done: seq<Done>, asked: seq<Frame>)
    requires Agrees(done, asked) && done != [] && Agrees(done[..|done| - 1], asked)
    requires forall f | f in Delivered(done, asked) :: |f.payload| <= PAYLOAD_MAX
    requires forall f | f in Delivered(done[..|done| - 1], asked) :: |f.payload| <= PAYLOAD_MAX
    requires Contributed(done[..|done| - 1]) == Encoded(Delivered(done[..|done| - 1], asked))
    ensures Contributed(done) == Encoded(Delivered(done, asked))
  {
    var n := |done| - 1;
    var d := done[n];
    var before := Delivered(done[..n], asked);
    LastBytes(done);
    if d.sent {
      assert Delivered(done, asked) == before + [asked[n]];
      EncodedSnoc(before, asked[n]);
    } else {
      assert Delivered(done, asked) == before;
    }
  }

  lemma LastBytes(done: seq<Done>)
    requires done != [] && Verdicts(done, false) && Verdicts(done[..|done| - 1], false)
    ensures var n := |done| - 1;
            Contributed(done) == Contributed(done[..n]) + if done[n].sent then done[n].bytes else []
  {
    var d := done[|done| - 1];
    assert d in done;
    if d.sent { assert d.bytes[..d.accepted] == d.bytes; }
  }

  lemma EncodedSnoc(frames: seq<Frame>, f: Frame)
    requires forall g | g in frames + [f] :: |g.payload| <= PAYLOAD_MAX
    ensures forall g | g in frames :: |g.payload| <= PAYLOAD_MAX
    ensures Encoded(frames + [f]) == Encoded(frames) + Encode(f)
  {
    assert forall g | g in frames :: g in frames + [f];
    assert (frames + [f])[..|frames|] == frames;
  }

  /** Until the first hard error the kernel has the whole frames whose completion said
      true, in order, then the begun part of the frame now at the head, which is the
      next to go on; nothing of a cancelled frame. */
  lemma WholeFramesInOrder(events: seq<Event>)
    requires !After(events).broken
    ensures var l := After(events);
            && |l.done| <= |l.asked|
            && (forall f | f in Delivered(l.done, l.asked) :: |f.payload| <= PAYLOAD_MAX)
            && l.wire == Encoded(Delivered(l.done, l.asked)) + Started(l)
  {
    var l := After(events);
    OnlyDeliveredCost(l.done, l.asked);
  }

  // ----------------------------------------------------- what the node then reads

  function Plain(frames: seq<Frame>): seq<Item> {
    if frames == [] then [] else Plain(frames[..|frames| - 1]) + [Item([], frames[|frames| - 1])]
  }

  lemma {:induction false} WireSnoc(items: seq<Item>, item: Item)
    requires Sendable(item) && forall i :: 0 <= i < |items| ==> Sendable(items[i])
    ensures Wire(items + [item]) == Wire(items) + (item.noise + Encode(item.frame))
    ensures Frames(items + [item]) == Frames(items) + [item.frame]
  {
    if items == [] {
      assert items + [item] == [item];
      assert Wire([item][1..]) == [] && Frames([item][1..]) == [];
    } else {
      assert (items + [item])[1..] == items[1..] + [item];
      WireSnoc(items[1..], item);
    }
  }

  lemma {:induction false} EncodedIsWire(frames: seq<Frame>)
    requires forall f | f in frames :: |f.payload| <= PAYLOAD_MAX
    ensures forall i :: 0 <= i < |Plain(frames)| ==> Sendable(Plain(frames)[i])
    ensures Wire(Plain(frames)) == Encoded(frames) && Frames(Plain(frames)) == frames
  {
    if frames != [] {
      var n := |frames| - 1;
      assert frames[n] in frames;
      EncodedIsWire(frames[..n]);
      var items := Plain(frames[..n]);
      assert Plain(frames) == items + [Item([], frames[n])];
      WireSnoc(items, Item([], frames[n]));
      assert [] + Encode(frames[n]) == Encode(frames[n]);
      assert frames == frames[..n] + [frames[n]];
    }
  }

  lemma PrefixHoldsNothing(f: Frame, k: nat)
    requires |f.payload| <= PAYLOAD_MAX && k < |Encode(f)|
    ensures Scan(Encode(f)[..k]) == Found([], 0, 0)
  {}

  /** A parser reading that stream hands over exactly the frames whose completion said
      true, in order, and counts no error. */
  lemma NodeReadsWhatWasCompleted(events: seq<Event>, p: Parse)
    requires !After(events).broken && Fits(p) && Counts(p) && p.mode == WaitHdr0
    ensures |After(events).done| <= |After(events).asked|
    ensures Added(FeedAll(p, After(events).wire), p,
                  Found(Delivered(After(events).done, After(events).asked), 0, 0))
  {
    var l := After(events);
    WholeFramesInOrder(events);
    StartedHoldsNothing(l);
    StreamScanned(Delivered(l.done, l.asked), Started(l));
    ParserIsScan(p, l.wire);
  }

  lemma StreamScanned(frames: seq<Frame>, rest: Bytes)
    requires (forall f | f in frames :: |f.payload| <= PAYLOAD_MAX) && Scan(rest) == Found([], 0, 0)
    ensures Scan(Encoded(frames) + rest) == Found(frames, 0, 0)
  {
    EncodedIsWire(frames);
    WireScanned(Plain(frames), rest);
    assert frames + [] == frames;
  }

  lemma StartedHoldsNothing(l: Link)
    requires Inv(l)
    ensures Scan(Started(l)) == Found([], 0, 0)
  {
    if l.queue != [] {
      var f := l.asked[|l.done|];
      assert l.queue[0].bytes == Encode(f);
      assert f in l.asked;
      PrefixHoldsNothing(f, l.queue[0].offset);
    }
  }
}
