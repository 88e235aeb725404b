/** What a tracker hands to the output queue: who may be sent, and how often. */
module Sends {
  import opened Protocol
  import opened Tracker

  /** How far the tracker may move in one step, as far as its output is concerned. */
  ghost predicate Moves(t: Tracker, t1: Tracker) {
    && t.session <= t1.session
    && (t1.session == t.session ==>
          && t.next <= t1.next
          && (t1.phase.Opening? ==>
                && t.phase.Opening? && t.openSends <= t1.openSends
                && (t.openSends == t1.openSends && t.openPending ==> t1.openPending))
          && (forall q :: q in t1.entries && q < t.next ==>
                && q in t.entries && t.entries[q].sends <= t1.entries[q].sends
                && t1.entries[q].kind == t.entries[q].kind && t1.entries[q].args == t.entries[q].args
                && t1.entries[q].queuedAt == t.entries[q].queuedAt
                && (t.entries[q].sends == t1.entries[q].sends && t.entries[q].pending ==> t1.entries[q].pending)))
    && (t1.session > t.session ==> t1.entries == map[] && t1.next == 0)
  }

  /** A transmission the step from t to t1 may hand out; none was handed out before. */
  ghost predicate New(t: Tracker, t1: Tracker, s: Send) {
    if s.kind == SR_OPEN then
      && s == OpenSend(t1) && t1.phase.Opening? && t1.openPending && t1.openSends <= MAX_RETRY
      && (t1.session > t.session || (t.phase.Opening? && !t.openPending && t1.openSends == t.openSends))
    else if s.kind == SR_COMMAND then
      && t1.session == t.session && s.num in t1.entries && s == DataSend(t1, s.num, t1.entries[s.num])
      && t1.entries[s.num].pending && t1.entries[s.num].sends <= MAX_RETRY
      && (s.num >= t.next ||
          (s.num in t.entries && !t.entries[s.num].pending && t.entries[s.num].sends == t1.entries[s.num].sends))
    else s.kind == SR_RESULT_ACK && s.session == t.session && s.tail == [s.num]
  }

  ghost predicate Once(sends: seq<Send>) {
    forall i, j :: 0 <= i < j < |sends| && sends[i].kind != SR_RESULT_ACK ==> sends[i] != sends[j]
  }

  ghost predicate GoodOutput(t: Tracker, turn: Turn) {
    Moves(t, turn.t) && Once(turn.send) && forall i :: 0 <= i < |turn.send| ==> New(t, turn.t, turn.send[i])
  }

  // --------------------------------------------------------- one step at a time

  lemma EndSessionOutput(t: Tracker, asked: U64, failed: int, reason: Error, now: int)
    requires Valid(t)
    ensures GoodOutput(t, EndSession(t, asked, failed, reason, now))
  {}

  lemma SubmitOutput(t: Tracker, kind: Byte, args: Bytes, now: int)
    requires Valid(t)
    ensures GoodOutput(t, Submit(t, kind, args, now))
  {
    if Accepts(t, args) {
      SubmitPartition(t, kind, args, now);
    }
  }

  lemma OnWrittenOutput(t: Tracker, s: Send, ok: bool, now: int)
    requires Valid(t)
    ensures GoodOutput(t, OnWritten(t, s, ok, now))
  {
    if s.session == t.session && s.kind == SR_COMMAND && s.num in t.entries {
      EndSessionOutput(t, t.session, s.num, Timeout, now);
      EndSessionOutput(t, t.session, s.num, SendFailed, now);
    }
  }

  lemma ReceiveMoves(t: Tracker, q: Byte)
    requires Valid(t) && t.phase.Ready?
    ensures Moves(t, Receive(t, q)) && Moves(t, Complete(t, q))
  {}

  lemma OnResultOutput(t: Tracker, q: Byte, p: Bytes, now: int)
    requires Valid(t) && t.phase.Ready? && q < t.next && |p| >= 11
    ensures GoodOutput(t, OnResult(t, q, p, now))
  {
    var turn := OnResult(t, q, p, now);
    OnResultMoves(t, q, p, now);
    if |turn.send| == 2 { RolloverOpens(t, q, now); }
    if |turn.send| > 0 { assert turn.send[0] == ResultAck(t, q); }
  }

  lemma OnResultMoves(t: Tracker, q: Byte, p: Bytes, now: int)
    requires Valid(t) && t.phase.Ready? && q < t.next && |p| >= 11
    ensures Moves(t, OnResult(t, q, p, now).t)
  {
    ReceiveMoves(t, q);
  }

  lemma RolloverOpens(t: Tracker, q: Byte, now: int)
    requires Valid(t) && t.phase.Ready? && Rollover(Complete(t, q), now).send != []
    ensures var roll := Rollover(Complete(t, q), now);
            roll.send == [OpenSend(roll.t)] && New(t, roll.t, roll.send[0])
  {}

  lemma OnOpenAckOutput(t: Tracker, p: Bytes, now: int)
    requires Valid(t) && |p| >= 8
    ensures GoodOutput(t, OnOpenAck(t, p, now))
  {}

  lemma OnFrameOutput(t: Tracker, f: Frame, now: int)
    requires Valid(t)
    ensures GoodOutput(t, OnFrame(t, f, now))
  {
    var p := f.payload;
    if 8 <= |p| <= PAYLOAD_MAX && SessionOf(p) == t.session {
      if f.kind == SR_OPEN_ACK {
        OnOpenAckOutput(t, p, now);
      } else if |p| >= 9 && t.phase.Ready? && p[8] < t.next {
        if f.kind == SR_RECEIVED {
          ReceiveMoves(t, p[8]);
        } else if 11 <= |p| {
          OnResultOutput(t, p[8], p, now);
        }
      }
    }
  }

  ghost predicate RetryOf(t: Tracker, now: int, s: Send) {
    s.num in t.entries && Retry(t.entries[s.num], now) && s == DataSend(t, s.num, t.entries[s.num])
  }

  ghost predicate RetryList(t: Tracker, now: int, from: nat, ss: seq<Send>) {
    && (forall i :: 0 <= i < |ss| ==> from <= ss[i].num && RetryOf(t, now, ss[i]))
    && (forall i, j :: 0 <= i < j < |ss| ==> ss[i].num < ss[j].num)
  }

  lemma {:induction false} RetriesListing(t: Tracker, now: int, from: nat)
    requires from <= 256
    ensures RetryList(t, now, from, Retries(t, now, from))
    decreases 256 - from
  {
    if from < 256 {
      RetriesListing(t, now, from + 1);
    }
  }

  lemma RequeuedMoves(t: Tracker, now: int)
    requires Valid(t) && t.phase.Ready?
    ensures Moves(t, Requeued(t, now))
  {}

  lemma RetryNew(t: Tracker, now: int, q: Byte)
    requires Valid(t) && t.phase.Ready? && q in t.entries && Retry(t.entries[q], now) && !Hopeless(t.entries[q], now)
    ensures New(t, Requeued(t, now), DataSend(t, q, t.entries[q]))
  {}

  lemma RetriesOutput(t: Tracker, now: int)
    requires Valid(t) && t.phase.Ready? && FirstHopeless(t.entries, now, 0) == 256
    ensures GoodOutput(t, Turn(Requeued(t, now), Retries(t, now, 0), []))
  {
    RetriesListing(t, now, 0);
    var t1, ss := Requeued(t, now), Retries(t, now, 0);
    RequeuedMoves(t, now);
    forall i | 0 <= i < |ss| ensures New(t, t1, ss[i]) {
      assert RetryOf(t, now, ss[i]);
      RetryNew(t, now, ss[i].num);
    }
  }

  lemma TickOutput(t: Tracker, now: int)
    requires Valid(t)
    ensures GoodOutput(t, Tick(t, now))
  {
    if t.phase.Ready? {
      var k := FirstHopeless(t.entries, now, 0);
      if k < 256 {
        EndSessionOutput(t, t.session, k, Timeout, now);
      } else {
        RetriesOutput(t, now);
      }
    }
  }

  // ------------------------------------------------------- over a whole history

  ghost predicate Handed(t: Tracker, s: Send) {
    && s.session <= t.session
    && if s.kind == SR_OPEN then
         && s.tail == [] && s.attempt <= MAX_RETRY
         && (s.session == t.session && t.phase.Opening? ==>
               s.attempt < t.openSends || (s.attempt == t.openSends && t.openPending))
       else if s.kind == SR_COMMAND then
         && |s.tail| >= 2 && s.tail[0] == s.num && |s.tail| <= 2 + ARGS_MAX && s.attempt <= MAX_RETRY
         && (s.session == t.session ==>
               && s.num < t.next
               && (s.num in t.entries ==>
                     || s.attempt < t.entries[s.num].sends
                     || (s.attempt == t.entries[s.num].sends && t.entries[s.num].pending)))
       else s.kind == SR_RESULT_ACK && s.tail == [s.num]
  }

  /** Nothing is transmitted twice under the same attempt number, attempts stay
      below four: so at most four frames per command and four OPENs per session. */
  ghost predicate History(t: Tracker, issued: seq<Send>) {
    Once(issued) && forall i :: 0 <= i < |issued| ==> Handed(t, issued[i])
  }

  lemma HandedLater(t: Tracker, t1: Tracker, s: Send)
    requires Handed(t, s) && Moves(t, t1)
    ensures Handed(t1, s)
  {}

  lemma HandedNew(t: Tracker, t1: Tracker, s: Send)
    requires Valid(t) && Valid(t1) && New(t, t1, s) && Moves(t, t1)
    ensures Handed(t1, s)
  {
    if s.kind == SR_COMMAND { assert EntryOk(t1, s.num, t1.entries[s.num]); }
  }

  lemma NewIsFresh(t: Tracker, t1: Tracker, earlier: Send, s: Send)
    requires Handed(t, earlier) && New(t, t1, s) && Moves(t, t1) && s.kind != SR_RESULT_ACK
    ensures earlier != s
  {}

  lemma HistoryGrows(t: Tracker, turn: Turn, issued: seq<Send>)
    requires Valid(t) && Valid(turn.t) && History(t, issued) && GoodOutput(t, turn)
    ensures History(turn.t, issued + turn.send)
  {
    var all := issued + turn.send;
    forall i | 0 <= i < |all| ensures Handed(turn.t, all[i]) {
      if i < |issued| { HandedLater(t, turn.t, all[i]); } else { HandedNew(t, turn.t, all[i]); }
    }
    forall i, j | 0 <= i < j < |all| && all[i].kind != SR_RESULT_ACK ensures all[i] != all[j] {
      if i < |issued| <= j && all[j].kind != SR_RESULT_ACK { NewIsFresh(t, turn.t, all[i], all[j]); }
    }
  }
}
