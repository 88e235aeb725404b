/** What the tracker guarantees on its own, against arbitrary inputs: frames nobody
    sent, write reports in any order, clocks that jump. */
module SenderTheorems {
  import opened Protocol
  import opened Tracker
  import opened Sends
  import opened Sender

  ghost function After(l: Ledger, inputs: seq<Input>): (l1: Ledger)
    requires Inv(l)
    ensures Inv(l1)
    decreases |inputs|
  {
    if inputs == [] then l else
    AdvanceInv(l, inputs[0]);
    After(Advance(l, inputs[0]), inputs[1..])
  }

  ghost predicate Reachable(l: Ledger) {
    exists l0, inputs :: Init(l0) && (InitInv(l0); l == After(l0, inputs))
  }

  lemma ReachableInv(l: Ledger)
    requires Reachable(l)
    ensures Inv(l)
  {
    var l0, inputs :| Init(l0) && (InitInv(l0); l == After(l0, inputs));
    InitInv(l0);
  }

  // ------------------------------------------------------------------- window

  /** Commands are in flight only in a ready session, at most eight of them, and the
      left edge is the first number not yet acknowledged. */
  lemma SenderWindow(l: Ledger)
    requires Reachable(l)
    ensures |l.t.entries| <= WINDOW && (l.t.entries != map[] ==> l.t.phase.Ready?)
    ensures Shape(l.t) && l.t.base <= l.t.next <= l.t.base + WINDOW
    ensures forall i :: 0 <= i < l.t.base ==> l.t.received[i]
    ensures l.t.base < l.t.next ==> !l.t.received[l.t.base]
  {
    ReachableInv(l);
  }

  // ------------------------------------------------------------- bounded output

  function Copies(issued: seq<Send>, kind: Byte, session: U64, num: Byte): set<nat> {
    set i: nat | i < |issued| && issued[i].kind == kind && issued[i].session == session && issued[i].num == num
  }

  /** A set of positions that carry pairwise different numbers below n has at most n members. */
  lemma {:induction false} Pigeons(issued: seq<Send>, at: set<nat>, n: nat)
    requires forall i :: i in at ==> i < |issued| && issued[i].attempt < n
    requires forall i, j :: i in at && j in at && issued[i].attempt == issued[j].attempt ==> i == j
    ensures |at| <= n
    decreases n
  {
    if n == 0 {
      assert at == {};
    } else if i :| i in at && issued[i].attempt == n - 1 {
      Pigeons(issued, at - {i}, n - 1);
    } else {
      Pigeons(issued, at, n - 1);
    }
  }

  /** Every command is handed out at most four times, with the same bytes each time,
      and so is the OPEN of every session number. */
  lemma AtMostFourCopies(l: Ledger, kind: Byte, session: U64, num: Byte)
    requires Reachable(l) && kind in {SR_OPEN, SR_COMMAND}
    ensures |Copies(l.issued, kind, session, num)| <= MAX_RETRY + 1
    ensures forall i, j :: i in Copies(l.issued, kind, session, num) && j in Copies(l.issued, kind, session, num) ==>
              Wire(l.issued[i]) == Wire(l.issued[j])
  {
    ReachableInv(l);
    var at := Copies(l.issued, kind, session, num);
    forall i, j | i in at && j in at ensures l.issued[i].tail == l.issued[j].tail {
      SameTail(l, i, j);
    }
    forall i, j | i in at && j in at && l.issued[i].attempt == l.issued[j].attempt ensures i == j {
      assert l.issued[i] == l.issued[j];
    }
    assert forall i :: i in at ==> Handed(l.t, l.issued[i]);
    Pigeons(l.issued, at, MAX_RETRY + 1);
  }

  lemma SameTail(l: Ledger, i: nat, j: nat)
    requires Inv(l) && i < |l.issued| && j < |l.issued| && l.issued[i].kind == l.issued[j].kind
    requires l.issued[i].kind in {SR_OPEN, SR_COMMAND}
    requires l.issued[i].session == l.issued[j].session && l.issued[i].num == l.issued[j].num
    ensures l.issued[i].tail == l.issued[j].tail
  {
    var a, b := l.issued[i], l.issued[j];
    assert Handed(l.t, a) && Handed(l.t, b);
    if a.kind == SR_COMMAND {
      assert a in l.issued && b in l.issued;
      SameKey(l.subs, CommandOf(a), CommandOf(b));
      SameFields(a, b);
    }
  }

  lemma SameFields(a: Send, b: Send)
    requires |a.tail| >= 2 && |b.tail| >= 2 && CommandOf(a) == CommandOf(b)
    ensures a.tail == b.tail
  {
    assert a.tail == [a.tail[0], a.tail[1]] + a.tail[2..];
    assert b.tail == [b.tail[0], b.tail[1]] + b.tail[2..];
  }

  // ------------------------------------------------------------- session numbers

  /** Nothing was ever sent or submitted under a number above the present one. */
  lemma UsedSoFar(l: Ledger)
    requires Inv(l)
    ensures forall x :: x in l.issued ==> x.session <= l.t.session
    ensures forall c :: c in l.subs ==> c.session <= l.t.session
  {
    forall x | x in l.issued ensures x.session <= l.t.session { assert Handed(l.t, x); }
  }

  lemma OneStepUp(l: Ledger, input: Input)
    requires Inv(l)
    ensures l.t.session <= Advance(l, input).t.session
    ensures Advance(l, input).t.phase.Opening? && !l.t.phase.Opening? ==> l.t.session < Advance(l, input).t.session
  {
    ReactKeeps(l.t, input);
  }

  /** In every history the session number never falls, and whatever makes the tracker
      open a session (restart, abort, rollover or refusal) takes a number above every one
      a frame was sent or a command submitted under. */
  lemma SessionsIncrease(l: Ledger, input: Input)
    requires Reachable(l)
    ensures Inv(l) && l.t.session <= Advance(l, input).t.session
    ensures var t1 := Advance(l, input).t;
            t1.phase.Opening? && (!l.t.phase.Opening? || t1.session != l.t.session) ==>
              && l.t.session < t1.session
              && (forall x :: x in l.issued ==> x.session < t1.session)
              && (forall c :: c in l.subs ==> c.session < t1.session)
  {
    ReachableInv(l);
    UsedSoFar(l);
    OneStepUp(l, input);
  }

  lemma {:induction false} SessionsNeverFall(l: Ledger, inputs: seq<Input>)
    requires Inv(l)
    ensures l.t.session <= After(l, inputs).t.session
    decreases |inputs|
  {
    if inputs != [] {
      AdvanceInv(l, inputs[0]);
      OneStepUp(l, inputs[0]);
      SessionsNeverFall(Advance(l, inputs[0]), inputs[1..]);
    }
  }

  /** OPENs and commands leave in session order. */
  ghost predicate InSessionOrder(sends: seq<Send>) {
    forall i, j :: 0 <= i < j < |sends| && sends[i].kind != SR_RESULT_ACK && sends[j].kind != SR_RESULT_ACK ==>
      sends[i].session <= sends[j].session
  }

  lemma OrderStep(l: Ledger, input: Input)
    requires Inv(l) && InSessionOrder(l.issued)
    ensures InSessionOrder(Advance(l, input).issued)
  {
    UsedSoFar(l);
    ReactKeeps(l.t, input);
    OrderAppend(l.t, l.issued, React(l.t, input));
  }

  lemma OrderAppend(t: Tracker, issued: seq<Send>, turn: Turn)
    requires InSessionOrder(issued) && GoodOutput(t, turn) && forall x :: x in issued ==> x.session <= t.session
    ensures InSessionOrder(issued + turn.send)
  {
    forall i | 0 <= i < |turn.send| && turn.send[i].kind != SR_RESULT_ACK ensures turn.send[i].session == turn.t.session {
      assert New(t, turn.t, turn.send[i]);
    }
  }

  lemma {:induction false} OrderFrom(l: Ledger, inputs: seq<Input>)
    requires Inv(l) && InSessionOrder(l.issued)
    ensures InSessionOrder(After(l, inputs).issued)
    decreases |inputs|
  {
    if inputs != [] {
      AdvanceInv(l, inputs[0]);
      OrderStep(l, inputs[0]);
      OrderFrom(Advance(l, inputs[0]), inputs[1..]);
    }
  }

  lemma SentInSessionOrder(l: Ledger)
    requires Reachable(l)
    ensures InSessionOrder(l.issued)
  {
    var l0, inputs :| Init(l0) && (InitInv(l0); l == After(l0, inputs));
    InitInv(l0);
    OrderFrom(l0, inputs);
  }

  // --------------------------------------------------------- cancelled frames

  /** The frame's own deadline: four seconds from the handshake or the submission. */
  predicate Expired(t: Tracker, s: Send, now: int) {
    if s.kind == SR_OPEN then now - t.openingAt >= COMMAND_LIFETIME
    else s.num in t.entries && now - t.entries[s.num].queuedAt >= COMMAND_LIFETIME
  }

  /** Dropping a queued frame that is no longer wanted, and reporting it as not written,
      changes nothing at all unless the frame's own deadline has passed; dropping one that
      is wanted never goes unnoticed. */
  lemma CancellingIsSafe(t: Tracker, s: Send, now: int)
    requires Valid(t)
    ensures !CanSend(t, s, now) && !Expired(t, s, now) ==> OnWritten(t, s, false, now) == Quiet(t)
    ensures CanSend(t, s, now) && s.kind != SR_RESULT_ACK ==> OnWritten(t, s, false, now).t != t
  {
    if CanSend(t, s, now) && s.kind == SR_COMMAND {
      EndSessionKeeps(t, t.session, s.num, SendFailed, now);
      assert OnWritten(t, s, false, now).t.entries == map[];
    }
  }

  // ------------------------------------------------------------- every command ends

  /** In every history: each submission in flight or reported, never both, never twice. */
  lemma ExactlyOneReport(l: Ledger, c: Command)
    requires Reachable(l) && c in l.subs
    ensures InFlight(l, c) != Ended(l, c)
    ensures forall i, j :: (0 <= i < |l.reports| && 0 <= j < |l.reports|
                            && Closes(l.reports[i], c) && Closes(l.reports[j], c)) ==> i == j
    ensures forall i :: 0 <= i < |l.reports| && Closes(l.reports[i], c) ==> l.reports[i].done.kind == c.kind
  {
    ReachableInv(l);
    forall i | 0 <= i < |l.reports| && Closes(l.reports[i], c)
      ensures !InFlight(l, c) && l.reports[i].done.kind == c.kind
    {
      assert Stands(l, l.reports[i]);
      var d :| d in l.subs && Closes(l.reports[i], d) && d.kind == l.reports[i].done.kind && !InFlight(l, d);
      SameKey(l.subs, c, d);
    }
  }

  ghost predicate Running(l: Ledger, c: Command, since: int) {
    Ended(l, c) || (InFlight(l, c) && l.t.entries[c.num].queuedAt == since)
  }

  lemma RunningStep(l: Ledger, input: Input, c: Command, since: int)
    requires Inv(l) && c in l.subs && Running(l, c, since)
    ensures c in Advance(l, input).subs && Running(Advance(l, input), c, since)
  {
    AdvanceInv(l, input);
    if Ended(l, c) {
      EndedStays(l, input, c);
    } else if !Ended(Advance(l, input), c) {
      assert InFlight(Advance(l, input), c);
      EntryKept(l.t, input, c.num);
    }
  }

  lemma EndedStays(l: Ledger, input: Input, c: Command)
    requires Shape(l.t) && Ended(l, c)
    ensures Ended(Advance(l, input), c)
  {
    var i :| 0 <= i < |l.reports| && Closes(l.reports[i], c);
    assert Closes(Advance(l, input).reports[i], c);
  }

  lemma EntryKept(t: Tracker, input: Input, q: Byte)
    requires Valid(t) && q in t.entries && q in React(t, input).t.entries && React(t, input).t.session == t.session
    ensures React(t, input).t.entries[q].queuedAt == t.entries[q].queuedAt
  {
    ReactKeeps(t, input);
    assert EntryOk(t, q, t.entries[q]);
  }

  lemma {:induction false} RunningAfter(l: Ledger, inputs: seq<Input>, c: Command, since: int)
    requires Inv(l) && c in l.subs && Running(l, c, since)
    ensures c in After(l, inputs).subs && Running(After(l, inputs), c, since)
    decreases |inputs|
  {
    if inputs != [] {
      RunningStep(l, inputs[0], c, since);
      AdvanceInv(l, inputs[0]);
      RunningAfter(Advance(l, inputs[0]), inputs[1..], c, since);
    }
  }

  lemma OfferRuns(l: Ledger, offer: Input, c: Command)
    requires Inv(l) && offer.Offer? && Accepts(l.t, offer.args)
    requires c == Command(l.t.session, l.t.next, offer.kind, offer.args)
    ensures c in Advance(l, offer).subs && Running(Advance(l, offer), c, offer.now)
  {
    assert Advance(l, offer).subs[|l.subs|] == c;
  }

  lemma ClockEnds(l: Ledger, c: Command, since: int, now: int)
    requires Inv(l) && c in l.subs && Running(l, c, since) && now - since >= RESULT_TIMEOUT
    ensures Ended(Advance(l, Clock(now)), c)
  {
    if Ended(l, c) {
      EndedStays(l, Clock(now), c);
    } else {
      TickReports(l.t, now, c.num);
      ReportedEnds(l, Clock(now), c);
    }
  }

  lemma TickReports(t: Tracker, now: int, q: Byte)
    requires Valid(t) && q in t.entries && now - t.entries[q].queuedAt >= RESULT_TIMEOUT
    ensures Reported(React(t, Clock(now)).finished, q)
  {
    TickDeadline(t, now, q);
  }

  lemma ReportedEnds(l: Ledger, input: Input, c: Command)
    requires Shape(l.t) && InFlight(l, c) && Reported(React(l.t, input).finished, c.num)
    ensures Ended(Advance(l, input), c)
  {
    var finished := React(l.t, input).finished;
    var i :| 0 <= i < |finished| && finished[i].num == c.num;
    assert Closes(Advance(l, input).reports[|l.reports| + i], c);
  }

  /** A command accepted at time t0 is over after the first tick at t0 + 10 s or later,
      whatever happened in between. */
  lemma EndsWithinTenSeconds(l: Ledger, offer: Input, inputs: seq<Input>, now: int, c: Command)
    requires Inv(l) && offer.Offer? && Accepts(l.t, offer.args)
    requires c == Command(l.t.session, l.t.next, offer.kind, offer.args)
    requires now - offer.now >= RESULT_TIMEOUT
    ensures Inv(Advance(l, offer))
    ensures Ended(Advance(After(Advance(l, offer), inputs), Clock(now)), c)
  {
    AdvanceInv(l, offer);
    OfferRuns(l, offer, c);
    RunningAfter(Advance(l, offer), inputs, c, offer.now);
    ClockEnds(After(Advance(l, offer), inputs), c, offer.now, now);
  }
}
