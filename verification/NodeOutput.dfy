/** NodeLink's output side as it runs: a queue whose head is written piecemeal. */
module NodeOutput {
  import opened Protocol
  import opened FrameCodec
  import opened OutputQueue

  class NodeLink {
    var queue: seq<Pending>
    ghost var asked: seq<Frame>
    ghost var wire: Bytes
    ghost var done: seq<Done>
    ghost var broken: bool

    ghost function State(): Link
      reads this
    {
      Link(queue, asked, wire, done, broken)
    }

    constructor ()
      ensures State() == IDLE
    {
      queue, asked, wire, done, broken := [], [], [], [], false;
    }

    /** False, with the queue untouched, when no frame can be built. */
    method Enqueue(f: Frame) returns (ok: bool)
      modifies this
      ensures ok <==> |f.payload| <= PAYLOAD_MAX
      ensures State() == Send(old(State()), f)
    {
      ok := |f.payload| <= PAYLOAD_MAX;
      if ok {
        queue := queue + [Pending(Encode(f), 0)];
        asked := asked + [f];
      }
    }

    /** Completion callbacks may queue more frames. */
    method Callbacks(follow: seq<Frame>)
      modifies this
      ensures State() == SendAll(old(State()), follow)
    {
      for i := 0 to |follow|
        invariant SendAll(State(), follow[i..]) == SendAll(old(State()), follow)
      {
        assert follow[i..][0] == follow[i] && follow[i..][1..] == follow[i + 1..];
        var _ := Enqueue(follow[i]);
      }
    }

    method CompleteHead(sent: bool, follow: seq<Frame>)
      requires queue != []
      modifies this
      ensures State() == CompleteFront(old(State()), sent, follow)
    {
      done := done + [Done(queue[0].bytes, queue[0].offset, sent)];
      queue := queue[1..];
      Callbacks(follow);
    }

    /** Every waiting frame is told false, first to last. */
    method DiscardOutput(follow: seq<Frame>)
      modifies this
      ensures State() == Discard(old(State()), follow)
    {
      var discarded := queue;
      queue := [];
      broken := true;
      for i := 0 to |discarded|
        invariant queue == [] && asked == old(asked) && wire == old(wire) && broken
        invariant done + Fails(discarded[i..]) == old(done) + Fails(discarded)
      {
        assert discarded[i..][0] == discarded[i] && discarded[i..][1..] == discarded[i + 1..];
        done := done + [Done(discarded[i].bytes, discarded[i].offset, false)];
      }
      assert Fails(discarded[|discarded|..]) == [];
      assert done == old(done) + Fails(discarded);
      Callbacks(follow);
    }

    method Write(n: nat) returns (whole: bool)
      requires queue != [] && queue[0].offset + n <= |queue[0].bytes|
      modifies this
      ensures State() == Advance(old(State()), n)
      ensures whole <==> queue[0].offset == |queue[0].bytes|
    {
      var head := queue[0];
      wire := wire + head.bytes[head.offset..head.offset + n];
      queue := queue[0 := head.(offset := head.offset + n)];
      whole := head.offset + n == |head.bytes|;
    }

    method TakeTurn(r: Round) returns (stop: bool)
      requires queue != []
      modifies this
      ensures State() == Turn(old(State()), r)
      ensures stop == Stops(old(State()), r)
    {
      stop := false;
      var head := queue[0];
      if head.offset == 0 && !r.allowed {
        CompleteHead(false, r.follow);
        return;
      }
      match r.answer {
        case Took(n) =>
          var k := Taken(head, n);
          if k > 0 {
            var whole := Write(k);
            if whole { CompleteHead(true, r.follow); }
          } else {
            DiscardOutput(r.follow);
            stop := true;
          }
        case Interrupted =>
        case Blocked =>
          stop := true;
        case Failed =>
          DiscardOutput(r.follow);
          stop := true;
      }
    }

    method FlushOutput(script: seq<Round>)
      modifies this
      ensures State() == Flush(old(State()), script)
    {
      var i := 0;
      assert script[0..] == script;
      while i < |script| && queue != []
        invariant 0 <= i <= |script|
        invariant Flush(State(), script[i..]) == Flush(old(State()), script)
      {
        assert script[i..][0] == script[i] && script[i..][1..] == script[i + 1..];
        var stop := TakeTurn(script[i]);
        i := i + 1;
        if stop { return; }
      }
    }
  }
}
