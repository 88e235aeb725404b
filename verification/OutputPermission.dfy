/** The send predicate is obeyed: what is withdrawn before its first byte is never written,
    and nothing else fails until a write error does. */
module OutputPermission {
  import opened Protocol
  import opened FrameCodec
  import opened OutputQueue
  import opened OutputTheorems

  /** One turn of the flush loop, as it happened. */
  datatype Move = Move(before: Link, round: Round, after: Link)

  function FlushMoves(l: Link, script: seq<Round>): seq<Move>
    decreases |script|
  {
    if script == [] || l.queue == [] then []
    else
      [Move(l, script[0], Turn(l, script[0]))]
      + if Stops(l, script[0]) then [] else FlushMoves(Turn(l, script[0]), script[1..])
  }

  /** All turns of a run, in order. */
  function Moves(events: seq<Event>): seq<Move> {
    if events == [] then [] else
      var before := events[..|events| - 1];
      match events[|events| - 1]
      case Ask(_) => Moves(before)
      case Writable(script) => Moves(before) + FlushMoves(After(before), script)
  }

  // ------------------------------------------------------------------- one turn

  predicate Unbegun(l: Link) { l.queue != [] && l.queue[0].offset == 0 }

  /** Nothing is written and the head is told false. */
  predicate Withdraws(m: Move) {
    && m.before.queue != [] && m.after.wire == m.before.wire && m.after.broken == m.before.broken
    && m.after.done == m.before.done + [Done(m.before.queue[0].bytes, 0, false)]
  }

  /** The count the kernel gave, which is never above what it was offered. */
  predicate Counts(r: Round, offered: int, n: int) {
    r.answer.Took? && (n == r.answer.n || (n == offered && offered < r.answer.n))
  }

  /** The kernel takes some bytes, the next ones of the head; the head is told true if these
      were its last, and nothing is told otherwise. */
  predicate Writes(m: Move) {
    && m.before.queue != [] && |m.before.wire| < |m.after.wire| && m.before.wire <= m.after.wire
    && m.after.broken == m.before.broken
    && var head, n := m.before.queue[0], |m.after.wire| - |m.before.wire|;
       && head.offset + n <= |head.bytes| && Counts(m.round, |head.bytes| - head.offset, n)
       && m.after.wire == m.before.wire + head.bytes[head.offset..head.offset + n]
       && m.after.done == m.before.done + if head.offset + n == |head.bytes| then [Done(head.bytes, |head.bytes|, true)] else []
  }

  /** Nothing is written and every waiting frame is told false. */
  predicate Breaks(m: Move) {
    m.after.broken && m.after.wire == m.before.wire && m.after.done == m.before.done + Fails(m.before.queue)
  }

  /** What a turn does, by permission and by what the kernel says. */
  predicate Obeys(m: Move) {
    if Unbegun(m.before) && !m.round.allowed then Withdraws(m)
    else match m.round.answer
      case Took(n) => if n == 0 then Breaks(m) else Writes(m)
      case Interrupted => m.after == m.before
      case Blocked => m.after == m.before
      case Failed => Breaks(m)
  }

  lemma {:induction false} SendAllAdds(l: Link, fs: seq<Frame>)
    ensures var m := SendAll(l, fs);
            && m.wire == l.wire && m.done == l.done && m.broken == l.broken && l.queue <= m.queue
            && forall i :: |l.queue| <= i < |m.queue| ==> m.queue[i].offset == 0
    decreases |fs|
  {
    if fs != [] { SendAllAdds(Send(l, fs[0]), fs[1..]); }
  }

  lemma TurnObeys(l: Link, r: Round)
    requires Inv(l) && l.queue != []
    ensures Obeys(Move(l, r, Turn(l, r)))
  {
    var head := l.queue[0];
    if head.offset == 0 && !r.allowed {
      SendAllAdds(l.(queue := l.queue[1..], done := l.done + [Done(head.bytes, head.offset, false)]), r.follow);
    } else if r.answer.Took? && r.answer.n > 0 {
      TurnWrites(l, r);
    } else {
      SendAllAdds(l.(queue := [], done := l.done + Fails(l.queue), broken := true), r.follow);
    }
  }

  lemma TurnWrites(l: Link, r: Round)
    requires Offsets(l.queue) && l.queue != [] && (l.queue[0].offset > 0 || r.allowed) && r.answer.Took? && r.answer.n > 0
    ensures Writes(Move(l, r, Turn(l, r)))
  {
    var head := l.queue[0];
    var k := Taken(head, r.answer.n);
    var m := Advance(l, k);
    assert m.wire[|l.wire|..] == head.bytes[head.offset..head.offset + k];
    if head.offset + k == |head.bytes| {
      SendAllAdds(m.(queue := m.queue[1..], done := m.done + [Done(head.bytes, |head.bytes|, true)]), r.follow);
    }
  }

  // ------------------------------------------------------------------- every run

  /** Frame number `i` wrote its first byte in a round that allowed it. */
  ghost predicate BeganAllowed(moves: seq<Move>, i: nat) {
    exists k :: 0 <= k < |moves| && |moves[k].before.done| == i && Unbegun(moves[k].before)
                && moves[k].round.allowed && Writes(moves[k])
  }

  /** Frame number `i` was withdrawn before its first byte. */
  ghost predicate WasWithdrawn(moves: seq<Move>, i: nat) {
    exists k :: 0 <= k < |moves| && |moves[k].before.done| == i && Unbegun(moves[k].before)
                && !moves[k].round.allowed && Withdraws(moves[k])
  }

  /** Up to a write error, frames told true or begun began with permission, and frames told
      false were withdrawn. */
  ghost predicate Justified(moves: seq<Move>, l: Link) {
    !l.broken ==>
      && (forall i :: 0 <= i < |l.done| ==> if l.done[i].sent then BeganAllowed(moves, i) else WasWithdrawn(moves, i))
      && (l.queue != [] && l.queue[0].offset > 0 ==> BeganAllowed(moves, |l.done|))
  }

  lemma MoreMoves(moves: seq<Move>, more: seq<Move>, i: nat)
    ensures BeganAllowed(moves, i) ==> BeganAllowed(moves + more, i)
    ensures WasWithdrawn(moves, i) ==> WasWithdrawn(moves + more, i)
  {
    var all := moves + more;
    assert forall k :: 0 <= k < |moves| ==> all[k] == moves[k];
  }

  /** A turn that tells something leaves a head that has not begun. */
  lemma FreshHead(l: Link, r: Round)
    requires Inv(l) && l.queue != [] && Turn(l, r).done != l.done
    ensures Turn(l, r).queue != [] ==> Turn(l, r).queue[0].offset == 0
  {
    var head := l.queue[0];
    if head.offset == 0 && !r.allowed {
      SendAllAdds(l.(queue := l.queue[1..], done := l.done + [Done(head.bytes, head.offset, false)]), r.follow);
    } else if r.answer.Took? && r.answer.n > 0 {
      var m := Advance(l, Taken(head, r.answer.n));
      SendAllAdds(m.(queue := m.queue[1..], done := m.done + [Done(head.bytes, |head.bytes|, true)]), r.follow);
    } else {
      SendAllAdds(l.(queue := [], done := l.done + Fails(l.queue), broken := true), r.follow);
    }
  }

  /** The frame this turn tells of, or goes on with, is accounted for. */
  lemma TurnAccounts(moves: seq<Move>, l: Link, r: Round)
    requires Inv(l) && l.queue != [] && Justified(moves, l) && !Turn(l, r).broken
    ensures var l1 := Turn(l, r); var all := moves + [Move(l, r, l1)];
            && (|l1.done| > |l.done| ==>
                  && |l1.done| == |l.done| + 1 && l.done <= l1.done
                  && if l1.done[|l.done|].sent then BeganAllowed(all, |l.done|) else WasWithdrawn(all, |l.done|))
            && (l1.done == l.done && l1.queue != [] && l1.queue[0].offset > 0 ==> BeganAllowed(all, |l.done|))
            && (|l1.done| > |l.done| || l1.done == l.done)
  {
    var m := Move(l, r, Turn(l, r));
    var all := moves + [m];
    TurnObeys(l, r);
    MoreMoves(moves, [m], |l.done|);
    assert all[|moves|] == m;
    if Unbegun(l) && r.allowed && Writes(m) { assert BeganAllowed(all, |l.done|); }
    if Unbegun(l) && !r.allowed { assert WasWithdrawn(all, |l.done|); }
  }

  lemma TurnJustified(moves: seq<Move>, l: Link, r: Round)
    requires Inv(l) && l.queue != [] && Justified(moves, l)
    ensures Justified(moves + [Move(l, r, Turn(l, r))], Turn(l, r))
  {
    var l1 := Turn(l, r);
    if !l1.broken {
      TurnAccounts(moves, l, r);
      if l1.done != l.done { FreshHead(l, r); }
      forall i | 0 <= i < |l1.done|
        ensures if l1.done[i].sent then BeganAllowed(moves + [Move(l, r, l1)], i) else WasWithdrawn(moves + [Move(l, r, l1)], i)
      {
        if i < |l.done| {
          MoreMoves(moves, [Move(l, r, l1)], i);
          StillWhole(l, r);
        }
      }
    }
  }

  lemma StillWhole(l: Link, r: Round)
    requires Inv(l) && l.queue != [] && !Turn(l, r).broken
    ensures !l.broken && l.done <= Turn(l, r).done
  {
    TurnObeys(l, r);
  }

  /** A flush is its first turn and the rest. */
  lemma FirstMove(l: Link, script: seq<Round>)
    requires script != [] && l.queue != []
    ensures var m := Move(l, script[0], Turn(l, script[0]));
            if Stops(l, script[0]) then FlushMoves(l, script) == [m] && Flush(l, script) == m.after
            else FlushMoves(l, script) == [m] + FlushMoves(m.after, script[1..]) && Flush(l, script) == Flush(m.after, script[1..])
  {}

  lemma {:induction false} FlushObeys(l: Link, script: seq<Round>)
    requires Inv(l)
    ensures forall m :: m in FlushMoves(l, script) ==> Obeys(m)
    decreases |script|
  {
    if script != [] && l.queue != [] {
      FirstMove(l, script);
      TurnObeys(l, script[0]);
      TurnInv(l, script[0]);
      if !Stops(l, script[0]) { FlushObeys(Turn(l, script[0]), script[1..]); }
    }
  }

  lemma {:induction false} FlushJustified(moves: seq<Move>, l: Link, script: seq<Round>)
    requires Inv(l) && Justified(moves, l)
    ensures Justified(moves + FlushMoves(l, script), Flush(l, script))
    decreases |script|
  {
    if script == [] || l.queue == [] {
      assert moves + [] == moves;
    } else {
      var m := Move(l, script[0], Turn(l, script[0]));
      FirstMove(l, script);
      TurnJustified(moves, l, script[0]);
      if !Stops(l, script[0]) {
        TurnInv(l, script[0]);
        FlushJustified(moves + [m], m.after, script[1..]);
        assert moves + [m] + FlushMoves(m.after, script[1..]) == moves + ([m] + FlushMoves(m.after, script[1..]));
      }
    }
  }

  lemma SendJustified(moves: seq<Move>, l: Link, f: Frame)
    requires Justified(moves, l)
    ensures Justified(moves, Send(l, f))
  {}

  /** Over every run of sends and flushes: each turn does exactly what permission and kernel
      answer demand. Until a write error, whatever reached the wire began in a round that
      allowed it, and whatever was told false was withdrawn before its first byte. */
  lemma {:induction false} PermissionObeyed(events: seq<Event>)
    ensures forall m :: m in Moves(events) ==> Obeys(m)
    ensures Justified(Moves(events), After(events))
  {
    if events != [] {
      var before := events[..|events| - 1];
      PermissionObeyed(before);
      match events[|events| - 1]
      case Ask(f) => SendJustified(Moves(before), After(before), f);
      case Writable(script) =>
        FlushObeys(After(before), script);
        FlushJustified(Moves(before), After(before), script);
    }
  }

  /** When the kernel cannot take more, the flush ends there and the rest of its script is
      not used. */
  lemma BlockedEndsFlush(l: Link, script: seq<Round>)
    requires script != [] && l.queue != [] && (l.queue[0].offset > 0 || script[0].allowed) && script[0].answer.Blocked?
    ensures Flush(l, script) == l
  {}

  /** After a withdrawal, an accepted write or an interruption the flush goes on. */
  lemma OthersGoOn(l: Link, script: seq<Round>)
    requires script != [] && l.queue != [] && l.queue[0].offset < |l.queue[0].bytes|
    requires || (Unbegun(l) && !script[0].allowed)
             || script[0].answer.Interrupted? || (script[0].answer.Took? && script[0].answer.n > 0)
    ensures Flush(l, script) == Flush(Turn(l, script[0]), script[1..])
  {
    FirstMove(l, script);
  }
}
