/** What the tracker does with each event, said without reference to how it does it. */
module TrackerTheorems {
  import opened Protocol
  import opened Tracker
  import opened Sends

  // ------------------------------------------------------------------ the timer

  /** The entry can still be saved: unacknowledged for less than four seconds, without a
      result for less than ten, and not out of retries. */
  predicate Alive(e: Pending, now: int) {
    && (e.received || now - e.queuedAt < 4000)
    && now - e.queuedAt < 10000
    && (e.received || e.pending || e.sends <= 3 || now - e.sentAt < 500)
  }

  /** Written, not acknowledged, and last sent half a second ago or more. */
  predicate Overdue(e: Pending, now: int) { !e.received && !e.pending && now - e.sentAt >= 500 }

  /** The COMMAND frame of an entry: its next attempt. */
  function FrameFor(t: Tracker, q: Byte, e: Pending): Send {
    Send(0x24, t.session, [q, e.kind] + e.args, q, e.sends)
  }

  /** `sends` are the frames of exactly the overdue entries, once each, in number order. */
  ghost predicate RepeatsOverdue(t: Tracker, now: int, sends: seq<Send>) {
    && (forall i, j :: 0 <= i < j < |sends| ==> sends[i].num < sends[j].num)
    && (forall i :: 0 <= i < |sends| ==> IsRepeat(t, now, sends[i]))
    && (forall q :: q in t.entries && Overdue(t.entries[q], now) ==> exists i :: 0 <= i < |sends| && sends[i].num == q)
  }

  ghost predicate IsRepeat(t: Tracker, now: int, s: Send) {
    s.num in t.entries && Overdue(t.entries[s.num], now) && s == FrameFor(t, s.num, t.entries[s.num])
  }

  /** Exactly the overdue entries wait to be written again. */
  ghost predicate Rewaits(t: Tracker, now: int, t1: Tracker) {
    && t1 == t.(entries := t1.entries) && t1.entries.Keys == t.entries.Keys
    && forall q :: q in t.entries ==> NowWaits(now, t.entries[q], t1.entries[q])
  }

  predicate NowWaits(now: int, e: Pending, e1: Pending) {
    if Overdue(e, now) then e1 == e.(pending := true) else e1 == e
  }

  lemma {:induction false} RetriesComplete(t: Tracker, now: int, from: nat, q: Byte)
    requires from <= q && q in t.entries && Retry(t.entries[q], now)
    ensures exists i :: 0 <= i < |Retries(t, now, from)| && Retries(t, now, from)[i].num == q
    decreases 256 - from
  {
    var rest := Retries(t, now, from + 1);
    if from == q {
      assert Retries(t, now, from)[0].num == q;
    } else {
      RetriesComplete(t, now, from + 1, q);
      var i :| 0 <= i < |rest| && rest[i].num == q;
      if from in t.entries && Retry(t.entries[from], now) {
        assert Retries(t, now, from)[i + 1] == rest[i];
      } else {
        assert Retries(t, now, from)[i] == rest[i];
      }
    }
  }

  lemma NoneHopeless(t: Tracker, now: int)
    requires forall q :: q in t.entries ==> Alive(t.entries[q], now)
    ensures FirstHopeless(t.entries, now, 0) == 256
  {}

  /** A tick of a ready tracker with nothing to give up on sends exactly the overdue commands
      again, reports nothing and changes nothing else. */
  lemma TickRetransmits(t: Tracker, now: int)
    requires Valid(t) && t.phase.Ready? && forall q :: q in t.entries ==> Alive(t.entries[q], now)
    ensures RepeatsOverdue(t, now, Tick(t, now).send)
    ensures Rewaits(t, now, Tick(t, now).t) && Tick(t, now).finished == []
  {
    NoneHopeless(t, now);
    RetriesListing(t, now, 0);
    var sends := Retries(t, now, 0);
    forall i | 0 <= i < |sends| ensures IsRepeat(t, now, sends[i]) { assert RetryOf(t, now, sends[i]); }
    forall q | q in t.entries && Overdue(t.entries[q], now) ensures exists i :: 0 <= i < |sends| && sends[i].num == q {
      RetriesComplete(t, now, 0, q);
    }
    assert Requeued(t, now).entries.Keys == t.entries.Keys;
  }

  // --------------------------------------------------------------- ending a session

  /** `finished` reports every entry once, in number order and without bytes: the culprit with
      the reason, the others as aborted with it. */
  ghost predicate EndsAll(entries: map<Byte, Pending>, finished: seq<Completion>, culprit: Byte, reason: Error) {
    && Increasing(finished)
    && (forall q :: q in entries ==> Reported(finished, q))
    && forall i :: 0 <= i < |finished| ==> EndsOne(entries, finished[i], culprit, reason)
  }

  predicate EndsOne(entries: map<Byte, Pending>, c: Completion, culprit: Byte, reason: Error) {
    && c.num in entries
    && c == Completion(c.num, entries[c.num].kind, [], if c.num == culprit then reason else SessionAborted)
  }

  /** The next session is being opened, with one OPEN handed out; or there is none left. */
  predicate MovesOn(t: Tracker, turn: Turn, now: int) {
    && turn.t.entries == map[]
    && if t.session == 0xFFFF_FFFF_FFFF_FFFF then turn.t.phase.Failed? && turn.send == []
       else turn.t.phase.Opening? && turn.t.session == t.session + 1 && turn.t.openingAt == now && turn.t.openPending
            && turn.t.openSends == 0 && turn.t.next == 0 && turn.send == [Send(0x23, t.session + 1, [], 0, 0)]
  }

  lemma AbortEnds(t: Tracker, q: Byte, reason: Error, now: int)
    requires Valid(t) && q in t.entries
    ensures EndsAll(t.entries, Abort(t, q, reason, now).finished, q, reason) && MovesOn(t, Abort(t, q, reason, now), now)
  {
    AbortedListing(t.entries, q, reason, 0);
    forall k | k in t.entries ensures Reported(Aborted(t.entries, q, reason, 0), k) {
      AbortedCovers(t.entries, q, reason, 0, k);
    }
  }

  /** As soon as one entry can not be saved, a tick ends the whole session and blames the
      lowest such number. */
  lemma TickGivesUp(t: Tracker, now: int, q: Byte)
    requires Valid(t) && t.phase.Ready? && q in t.entries && !Alive(t.entries[q], now)
    requires forall k :: k in t.entries && k < q ==> Alive(t.entries[k], now)
    ensures EndsAll(t.entries, Tick(t, now).finished, q, Timeout) && MovesOn(t, Tick(t, now), now)
  {
    assert Hopeless(t.entries[q], now);
    assert FirstHopeless(t.entries, now, 0) == q;
    AbortEnds(t, q, Timeout, now);
  }

  /** A write of the awaited frame that comes too late ends the session, successful or not... */
  lemma WriteTooLate(t: Tracker, q: Byte, ok: bool, now: int)
    requires Valid(t) && t.phase.Ready? && q in t.entries && t.entries[q].pending && !t.entries[q].received
    requires now - t.entries[q].queuedAt >= 4000
    ensures var turn := OnWritten(t, FrameFor(t, q, t.entries[q]), ok, now);
            MovesOn(t, turn, now) && EndsAll(t.entries, turn.finished, q, Timeout)
  {
    AbortEnds(t, q, Timeout, now);
  }

  /** ...and so does one that fails. */
  lemma WriteFailed(t: Tracker, q: Byte, now: int)
    requires Valid(t) && t.phase.Ready? && q in t.entries && t.entries[q].pending && !t.entries[q].received
    requires now - t.entries[q].queuedAt < 4000
    ensures var turn := OnWritten(t, FrameFor(t, q, t.entries[q]), false, now);
            MovesOn(t, turn, now) && EndsAll(t.entries, turn.finished, q, SendFailed)
  {
    AbortEnds(t, q, SendFailed, now);
  }

  /** While opening, a tick repeats the OPEN half a second after it was written, up to four
      in all, and fails after four seconds or when they are used up. */
  lemma TickReopens(t: Tracker, now: int)
    requires Valid(t) && t.phase.Opening?
    ensures var turn := Tick(t, now); var due := !t.openPending && now - t.openSentAt >= 500;
            && turn.finished == []
            && (turn.t.phase.Failed? <==> now - t.openingAt >= 4000 || (due && t.openSends > 3))
            && (if now - t.openingAt < 4000 && due && t.openSends <= 3
                then turn.send == [Send(0x23, t.session, [], 0, t.openSends)] && turn.t == t.(openPending := true)
                else turn.send == [] && turn.t == t.(phase := turn.t.phase))
  {}

  // ------------------------------------------------------------------- submitting

  /** A command is accepted exactly when the session is ready, numbers are left, fewer than
      eight are in flight, the window reaches, and the arguments fit; it then waits, unsent,
      under the next number, and its frame is handed out. */
  lemma SubmitFiles(t: Tracker, kind: Byte, args: Bytes, now: int)
    requires Valid(t)
    ensures var turn := Submit(t, kind, args, now);
            if t.phase.Ready? && t.next < 256 && t.next < t.base + 8 && |t.entries| < 8 && |args| <= 53 then
              && turn.send == [Send(0x24, t.session, [t.next, kind] + args, t.next, 0)]
              && turn.t.next == t.next + 1 && turn.t.base == t.base && turn.t.session == t.session
              && turn.t.entries == t.entries[t.next := Pending(kind, args, now, 0, 0, true, false)]
            else turn == Turn(t, [], [])
  {}

  /** A completed write of the awaited frame is counted and stamped; nothing else changes. */
  lemma WriteCounted(t: Tracker, q: Byte, now: int)
    requires Valid(t) && t.phase.Ready? && q in t.entries && t.entries[q].pending && !t.entries[q].received
    requires now - t.entries[q].queuedAt < 4000
    ensures OnWritten(t, FrameFor(t, q, t.entries[q]), true, now)
         == Turn(t.(entries := t.entries[q := Sent(t.entries[q], now)]), [], [])
  {}

  function Sent(e: Pending, now: int): Pending { e.(pending := false, sends := e.sends + 1, sentAt := now) }

  // -------------------------------------------------------------------- receiving

  /** The result bytes a node may give for a command: a code 0 to 3, alone unless it is 0
      and the command is a query, whose values follow in two or four bytes. */
  predicate GoodResult(kind: Byte, b: Bytes) {
    && 1 <= |b| <= 53 && b[0] <= 3
    && if b[0] != 0 then |b| == 1
       else (kind == 0x20 && |b| == 3) || (kind == 0x21 && |b| == 5) || (kind == 0x22 && |b| == 1)
  }

  lemma ResultShape(kind: Byte, session: U64, q: Byte, b: Bytes)
    requires |b| <= 53
    ensures ResultValid(kind, ResultFrame(session, q, kind, b).payload) <==> GoodResult(kind, b)
  {
    BodyFields(session, q, kind, b);
  }

  /** A good result of a command that was sent and has none yet completes it with those
      bytes and is acknowledged first of all; any other result is ignored. */
  lemma FirstResult(t: Tracker, q: Byte, b: Bytes, now: int)
    requires Valid(t) && t.phase.Ready? && q in t.entries && t.entries[q].sends > 0 && |b| <= 53
    ensures var turn := OnFrame(t, ResultFrame(t.session, q, t.entries[q].kind, b), now);
            if GoodResult(t.entries[q].kind, b) then
              && turn.finished == [Completion(q, t.entries[q].kind, b, NoError)]
              && turn.t.entries.Keys == t.entries.Keys - {q}
              && |turn.send| >= 1 && turn.send[0] == Send(0x25, t.session, [q], q, 0)
            else turn == Turn(t, [], [])
  {
    var kind := t.entries[q].kind;
    BodyFields(t.session, q, kind, b);
    ResultShape(kind, t.session, q, b);
    assert EntryOk(t, q, t.entries[q]);
  }

  /** A result repeated after completion is acknowledged again and changes nothing. */
  lemma RepeatedResult(t: Tracker, q: Byte, b: Bytes, now: int)
    requires Valid(t) && t.phase.Ready? && q < t.next && t.completed[q] && GoodResult(t.kinds[q], b)
    ensures OnFrame(t, ResultFrame(t.session, q, t.kinds[q], b), now) == Turn(t, [Send(0x25, t.session, [q], q, 0)], [])
  {
    BodyFields(t.session, q, t.kinds[q], b);
    ResultShape(t.kinds[q], t.session, q, b);
  }

  /** RECEIVED for a command that was sent marks exactly that number. */
  lemma ReceivedMarks(t: Tracker, q: Byte, now: int)
    requires Valid(t) && t.phase.Ready? && q in t.entries && t.entries[q].sends > 0
    ensures var turn := OnFrame(t, ReceivedFrame(t.session, q), now);
            && turn.send == [] && turn.finished == []
            && turn.t.received == t.received[q := true] && turn.t.entries == t.entries[q := t.entries[q].(received := true)]
  {
    SessionRoundTrip(t.session, [q]);
    assert EntryOk(t, q, t.entries[q]);
  }

  /** An accepting answer to a written OPEN, in time, makes the tracker ready, at once and
      with an empty window. */
  lemma OpenAccepted(t: Tracker, now: int)
    requires Valid(t) && t.phase.Opening? && t.openSends > 0 && now - t.openingAt < 4000
    ensures OnFrame(t, OpenAckFrame(t.session, t.session, 0), now)
         == Turn(t.(phase := Ready, openPending := false), [], [])
  {
    var s := t.session;
    var p := U64Bytes(s) + U64Bytes(s) + [RC_OK];
    assert p == U64Bytes(s) + (U64Bytes(s) + [RC_OK]);
    assert p[8..] == U64Bytes(s) + [RC_OK];
    SessionRoundTrip(s, U64Bytes(s) + [RC_OK]);
    SessionRoundTrip(s, [RC_OK]);
  }

  /** A refusal naming a session at or above ours makes the tracker ask for the one after
      that, unless there is none or four OPENs were written. */
  lemma RefusalAdopted(t: Tracker, high: U64, now: int)
    requires Valid(t) && t.phase.Opening? && t.openSends > 0 && now - t.openingAt < 4000
    ensures var turn := OnFrame(t, OpenAckFrame(t.session, high, 1), now);
            if high < t.session then turn == Turn(t, [], [])
            else if high == 0xFFFF_FFFF_FFFF_FFFF || t.openSends > 3 then turn == Turn(t.(phase := Failed), [], [])
            else turn == Turn(t.(session := high + 1, openPending := true), [Send(0x23, high + 1, [], 0, t.openSends)], [])
  {
    AnswerFields(t.session, high, 1);
  }

  lemma AnswerFields(s: U64, high: U64, rc: Byte)
    ensures var p := OpenAckFrame(s, high, rc).payload;
            |p| == 17 && SessionOf(p) == s && SessionOf(p[8..]) == high && p[16] == rc
  {
    var p := U64Bytes(s) + U64Bytes(high) + [rc];
    assert p == U64Bytes(s) + (U64Bytes(high) + [rc]);
    assert p[8..] == U64Bytes(high) + [rc];
    SessionRoundTrip(s, U64Bytes(high) + [rc]);
    SessionRoundTrip(high, [rc]);
  }

  // --------------------------------------------------------------------- permission

  /** An OPEN may be written exactly when its write would be counted... */
  lemma OpenAllowedIffCounted(t: Tracker, s: Send, now: int)
    requires s.kind == 0x23 && Shape(t)
    ensures CanSend(t, s, now) <==> OnWritten(t, s, true, now).t.openSends == t.openSends + 1
  {}

  /** ...and so may a command... */
  lemma CommandAllowedIffCounted(t: Tracker, s: Send, now: int)
    requires s.kind == 0x24 && Valid(t)
    ensures CanSend(t, s, now) <==>
              && s.num in t.entries && s.num in OnWritten(t, s, true, now).t.entries
              && OnWritten(t, s, true, now).t.entries[s.num].sends == t.entries[s.num].sends + 1
  {}

  /** ...and an acknowledgement from the result it answers to the end of that session. */
  lemma AckAllowed(t: Tracker, s: Send, now: int)
    requires Valid(t) && s.kind == 0x25
    ensures CanSend(t, s, now) <==> s.session == t.session && t.phase.Ready? && s.num < t.next && s.num !in t.entries
  {}

  /** The result of the last of all 256 numbers also moves on to the next session; no other
      result leaves the session. */
  lemma LastResultRollsOver(t: Tracker, q: Byte, b: Bytes, now: int)
    requires Valid(t) && t.phase.Ready? && q in t.entries && t.entries[q].sends > 0 && GoodResult(t.entries[q].kind, b)
    requires t.session < U64_MAX
    ensures var t1 := OnFrame(t, ResultFrame(t.session, q, t.entries[q].kind, b), now).t;
            if t.next == 256 && t.entries.Keys == {q} then t1.phase.Opening? && t1.session == t.session + 1 && t1.next == 0
            else t1.phase.Ready? && t1.session == t.session && t1.next == t.next
  {
    var kind := t.entries[q].kind;
    BodyFields(t.session, q, kind, b);
    ResultShape(kind, t.session, q, b);
    assert EntryOk(t, q, t.entries[q]);
    assert Complete(t, q).entries.Keys == t.entries.Keys - {q};
    OnlyOne(t.entries, Complete(t, q).entries, q);
  }

  lemma OnlyOne(m: map<Byte, Pending>, rest: map<Byte, Pending>, q: Byte)
    requires q in m && rest.Keys == m.Keys - {q}
    ensures rest == map[] <==> m.Keys == {q}
  {
    if m.Keys == {q} {
      assert rest.Keys == {};
      assert rest == map[];
    } else {
      var x :| x in m && x != q;
      assert x in rest.Keys;
    }
  }
}
