/** The gateway side of the selective-repeat command protocol, as a state machine
    on values. Class `CommandTracker` refines it with its fields and arrays. */
module Tracker {
  import opened Protocol

  datatype Phase = Closed | Opening | Ready | Failed

  datatype Pending = Pending(kind: Byte, args: Bytes, queuedAt: int, sentAt: int,
                             sends: nat, pending: bool, received: bool)

  datatype Tracker = Tracker(phase: Phase, session: U64, base: nat, next: nat,
                             received: seq<bool>, completed: seq<bool>, kinds: Bytes,
                             entries: map<Byte, Pending>,
                             openingAt: int, openSentAt: int, openSends: nat, openPending: bool)

  /** One transmission handed to the output queue; (session, attempt) identify it.
      `tail` is the payload after the session number. */
  datatype Send = Send(kind: Byte, session: U64, tail: Bytes, num: Byte, attempt: nat)

  function Wire(s: Send): Frame { Frame(s.kind, U64Bytes(s.session) + s.tail) }

  /** Why a command ended; the empty error string of a success is `NoError`. */
  datatype Error = NoError | Timeout | SessionAborted | SendFailed

  datatype Completion = Completion(num: Byte, kind: Byte, result: Bytes, error: Error)

  datatype Turn = Turn(t: Tracker, send: seq<Send>, finished: seq<Completion>)

  function Fill<T>(x: T): (s: seq<T>)
    ensures |s| == 256 && forall i :: 0 <= i < 256 ==> s[i] == x
  {
    seq(256, _ => x)
  }

  function Initial(): Tracker {
    Tracker(Closed, 0, 0, 0, Fill(false), Fill(false), Fill(0), map[], 0, 0, 0, false)
  }

  /** Array shapes; everything else about a tracker is a theorem. */
  predicate Shape(t: Tracker) {
    |t.received| == 256 && |t.completed| == 256 && |t.kinds| == 256
    && t.base <= t.next <= 256 && forall q :: q in t.entries ==> |t.entries[q].args| <= ARGS_MAX
  }

  function Quiet(t: Tracker): Turn { Turn(t, [], []) }

  function OpenSend(t: Tracker): Send { Send(SR_OPEN, t.session, [], 0, t.openSends) }

  function DataSend(t: Tracker, q: Byte, e: Pending): Send {
    Send(SR_COMMAND, t.session, [q, e.kind] + e.args, q, e.sends)
  }

  function ResultAck(t: Tracker, q: Byte): Send { Send(SR_RESULT_ACK, t.session, [q], q, 0) }

  // ----------------------------------------------------------------- sessions

  /** Opens a session strictly above every one used before, or gives up for good. */
  function Begin(t: Tracker, asked: U64, now: int): Turn {
    if asked <= t.session && t.session == U64_MAX then Quiet(t.(phase := Failed)) else
    var s: U64 := if asked <= t.session then t.session + 1 else asked;
    var t1 := Tracker(Opening, s, 0, 0, Fill(false), Fill(false), Fill(0), t.entries,
                      now, t.openSentAt, 0, true);
    Turn(t1, [OpenSend(t1)], [])
  }

  /** Terminal reports for the entries numbered `from` and up, in number order. */
  function Aborted(entries: map<Byte, Pending>, failed: int, reason: Error, from: nat): seq<Completion>
    requires from <= 256
    decreases 256 - from
  {
    if from == 256 then [] else
    var rest := Aborted(entries, failed, reason, from + 1);
    if from !in entries then rest
    else [Completion(from, entries[from].kind, [], if from == failed then reason else SessionAborted)] + rest
  }

  /** Ends every command in flight and moves on to a higher session. */
  function EndSession(t: Tracker, asked: U64, failed: int, reason: Error, now: int): Turn {
    var turn := Begin(t.(entries := map[]), asked, now);
    turn.(finished := Aborted(t.entries, failed, reason, 0))
  }

  function Start(t: Tracker, asked: U64, now: int): Turn { EndSession(t, asked, -1, SessionAborted, now) }

  function Abort(t: Tracker, failed: Byte, reason: Error, now: int): Turn {
    EndSession(t, t.session, failed, reason, now)
  }

  function Rollover(t: Tracker, now: int): Turn {
    if t.next == 256 && t.entries == map[] then Begin(t, t.session, now) else Quiet(t)
  }

  // ------------------------------------------------------------------- window

  predicate CanSubmit(t: Tracker) {
    t.phase.Ready? && t.next < 256 && t.next < t.base + WINDOW && |t.entries| < WINDOW
  }

  predicate Accepts(t: Tracker, args: Bytes) { CanSubmit(t) && |args| <= ARGS_MAX }

  function Submit(t: Tracker, kind: Byte, args: Bytes, now: int): Turn
    requires Shape(t)
  {
    if !Accepts(t, args) then Quiet(t) else
    var e := Pending(kind, args, now, 0, 0, true, false);
    Turn(t.(next := t.next + 1, kinds := t.kinds[t.next := kind], entries := t.entries[t.next := e]),
         [DataSend(t, t.next, e)], [])
  }

  /** First number from `base` on that is not acknowledged, at most `next`. */
  function FirstGap(received: seq<bool>, base: nat, next: nat): (b: nat)
    requires base <= next <= |received|
    ensures base <= b <= next
    ensures forall i :: base <= i < b ==> received[i]
    ensures b < next ==> !received[b]
    decreases next - base
  {
    if base < next && received[base] then FirstGap(received, base + 1, next) else base
  }

  function Receive(t: Tracker, q: Byte): Tracker
    requires Shape(t)
  {
    var received := t.received[q := true];
    t.(received := received,
       base := FirstGap(received, t.base, t.next),
       entries := if q in t.entries then t.entries[q := t.entries[q].(received := true)] else t.entries)
  }

  function Complete(t: Tracker, q: Byte): Tracker
    requires Shape(t)
  {
    var t1 := Receive(t, q);
    t1.(completed := t1.completed[q := true], entries := t1.entries - {q})
  }

  // ------------------------------------------------------------------- output

  predicate CanSend(t: Tracker, s: Send, now: int)
    requires Shape(t)
  {
    && s.session == t.session
    && if s.kind == SR_OPEN then
         t.phase.Opening? && t.openPending && s.attempt == t.openSends && now - t.openingAt < COMMAND_LIFETIME
       else
         && t.phase.Ready?
         && if s.kind == SR_RESULT_ACK then t.completed[s.num]
            else s.kind == SR_COMMAND && s.num in t.entries && Awaits(t, s)
                 && now - t.entries[s.num].queuedAt < COMMAND_LIFETIME
  }

  predicate Awaits(t: Tracker, s: Send)
    requires s.num in t.entries
  {
    var e := t.entries[s.num];
    e.pending && !e.received && s.attempt == e.sends
  }

  function OnWritten(t: Tracker, s: Send, ok: bool, now: int): Turn {
    if s.session != t.session then Quiet(t)
    else if s.kind == SR_OPEN then
      if !t.phase.Opening? || !t.openPending || s.attempt != t.openSends then Quiet(t)
      else if !ok || now - t.openingAt >= COMMAND_LIFETIME then
        Quiet(t.(openPending := false, phase := Failed))
      else Quiet(t.(openPending := false, openSends := t.openSends + 1, openSentAt := now))
    else if !t.phase.Ready? || s.kind != SR_COMMAND then Quiet(t)
    else if s.num !in t.entries || !Awaits(t, s) then Quiet(t)
    else
      var e := t.entries[s.num];
      if now - e.queuedAt >= COMMAND_LIFETIME then Abort(t, s.num, Timeout, now)
      else if !ok then Abort(t, s.num, SendFailed, now)
      else Quiet(t.(entries := t.entries[s.num := e.(pending := false, sends := e.sends + 1, sentAt := now)]))
  }

  // -------------------------------------------------------------------- input

  predicate ResultValid(kind: Byte, p: Bytes) {
    if |p| < 11 || p[10] > RC_BUSY then false
    else if p[10] != RC_OK then |p| == 11
    else if kind == QUERY_LIGHT then |p| == 13
    else if kind == QUERY_TH then |p| == 15
    else kind == SET_PERIOD && |p| == 11
  }

  function OnOpenAck(t: Tracker, p: Bytes, now: int): Turn
    requires |p| >= 8
  {
    if |p| != 17 || !t.phase.Opening? || t.openSends == 0 then Quiet(t)
    else if now - t.openingAt >= COMMAND_LIFETIME then Quiet(t.(phase := Failed))
    else
      var high := SessionOf(p[8..]);
      if p[16] == RC_OK && high == t.session then Quiet(t.(phase := Ready, openPending := false))
      else if p[16] == RC_BAD_PARAM && high >= t.session then
        if high == U64_MAX || t.openSends > MAX_RETRY then Quiet(t.(phase := Failed))
        else
          var t1 := t.(session := high + 1, openPending := true);
          Turn(t1, [OpenSend(t1)], [])
      else Quiet(t)
  }

  function OnResult(t: Tracker, q: Byte, p: Bytes, now: int): Turn
    requires Shape(t) && |p| >= 11
  {
    if t.completed[q] then Turn(t, [ResultAck(t, q)], [])
    else if q !in t.entries || t.entries[q].sends == 0 then Quiet(t)
    else
      var done := Completion(q, t.entries[q].kind, p[10..], NoError);
      var roll := Rollover(Complete(t, q), now);
      Turn(roll.t, [ResultAck(t, q)] + roll.send, [done])
  }

  function OnFrame(t: Tracker, f: Frame, now: int): Turn
    requires Shape(t)
  {
    var p := f.payload;
    if |p| < 8 || |p| > PAYLOAD_MAX || SessionOf(p) != t.session then Quiet(t)
    else if f.kind == SR_OPEN_ACK then OnOpenAck(t, p, now)
    else if !t.phase.Ready? || |p| < 9 || p[8] >= t.next then Quiet(t)
    else if f.kind == SR_RECEIVED then
      if |p| == 9 && p[8] in t.entries && t.entries[p[8]].sends != 0 then Quiet(Receive(t, p[8])) else Quiet(t)
    else if f.kind != SR_RESULT || |p| < 11 || p[9] != t.kinds[p[8]] || !ResultValid(p[9], p) then Quiet(t)
    else OnResult(t, p[8], p, now)
  }

  // --------------------------------------------------------------------- time

  /** A gap that can no longer be repaired, or a result that is too late. */
  predicate Hopeless(e: Pending, now: int) {
    || (!e.received && now - e.queuedAt >= COMMAND_LIFETIME)
    || now - e.queuedAt >= RESULT_TIMEOUT
    || (!e.received && !e.pending && e.sends > MAX_RETRY && now - e.sentAt >= ACK_TIMEOUT)
  }

  predicate Retry(e: Pending, now: int) { !e.received && !e.pending && now - e.sentAt >= ACK_TIMEOUT }

  /** Lowest hopeless number from `from` on, 256 if there is none. */
  function FirstHopeless(entries: map<Byte, Pending>, now: int, from: nat): (q: nat)
    requires from <= 256
    ensures from <= q <= 256
    ensures q < 256 ==> q in entries && Hopeless(entries[q], now)
    ensures forall i :: from <= i < q && i in entries ==> !Hopeless(entries[i], now)
    decreases 256 - from
  {
    if from == 256 || (from in entries && Hopeless(entries[from], now)) then from
    else FirstHopeless(entries, now, from + 1)
  }

  function Retries(t: Tracker, now: int, from: nat): seq<Send>
    requires from <= 256
    decreases 256 - from
  {
    if from == 256 then [] else
    var rest := Retries(t, now, from + 1);
    if from in t.entries && Retry(t.entries[from], now) then [DataSend(t, from, t.entries[from])] + rest else rest
  }

  function Requeued(t: Tracker, now: int): Tracker {
    t.(entries := map q | q in t.entries ::
         if Retry(t.entries[q], now) then t.entries[q].(pending := true) else t.entries[q])
  }

  function Tick(t: Tracker, now: int): Turn {
    if t.phase.Opening? then
      if now - t.openingAt >= COMMAND_LIFETIME then Quiet(t.(phase := Failed))
      else if !t.openPending && now - t.openSentAt >= ACK_TIMEOUT then
        if t.openSends > MAX_RETRY then Quiet(t.(phase := Failed))
        else Turn(t.(openPending := true), [OpenSend(t)], [])
      else Quiet(t)
    else if !t.phase.Ready? then Quiet(t)
    else
      var q := FirstHopeless(t.entries, now, 0);
      if q < 256 then Abort(t, q, Timeout, now) else Turn(Requeued(t, now), Retries(t, now, 0), [])
  }

  // =================================================================== bounds

  ghost predicate EntryOk(t: Tracker, q: Byte, e: Pending)
    requires Shape(t)
  {
    && q < t.next && t.kinds[q] == e.kind && e.received == t.received[q] && |e.args| <= ARGS_MAX
    && e.sends <= MAX_RETRY + 1 && (e.pending ==> e.sends <= MAX_RETRY)
  }

  /** Acknowledged numbers: all below `base`, not `base` itself, none from `next` on;
      a completed number is an acknowledged one. */
  ghost predicate Window(t: Tracker) {
    && |t.received| == 256 && |t.completed| == 256
    && t.base <= t.next <= 256 && t.next <= t.base + WINDOW
    && (forall i :: 0 <= i < t.base ==> t.received[i])
    && (t.base < t.next ==> !t.received[t.base])
    && (forall i :: t.next <= i < 256 ==> !t.received[i])
    && (forall i :: 0 <= i < 256 && t.completed[i] ==> t.received[i])
  }

  /** In a ready session every number handed out is in flight or completed. */
  ghost predicate Partition(t: Tracker) {
    && |t.completed| == 256 && t.next <= 256
    && (t.entries != map[] ==> t.phase.Ready?)
    && (t.phase.Opening? ==> t.next == 0)
    && (t.phase.Ready? ==> forall i :: 0 <= i < t.next ==> (i in t.entries) != t.completed[i])
  }

  ghost predicate Entries(t: Tracker) {
    Shape(t) && forall q :: q in t.entries ==> EntryOk(t, q, t.entries[q])
  }

  ghost predicate Handshake(t: Tracker) {
    t.openSends <= MAX_RETRY + 1 && (t.phase.Opening? && t.openPending ==> t.openSends <= MAX_RETRY)
  }

  /** Everything that is true of a tracker, whatever it was ever fed. */
  ghost predicate Valid(t: Tracker) {
    && Shape(t) && Window(t) && Partition(t) && Entries(t) && Handshake(t) && |t.entries| <= WINDOW
  }

  ghost predicate Reported(finished: seq<Completion>, q: Byte) {
    exists i :: 0 <= i < |finished| && finished[i].num == q
  }

  ghost predicate Increasing(finished: seq<Completion>) {
    forall i, j :: 0 <= i < j < |finished| ==> finished[i].num < finished[j].num
  }

  /** The reports of one step are exactly the commands that left the window, once
      each, in number order, under their own kind. */
  ghost predicate Settles(before: map<Byte, Pending>, after: map<Byte, Pending>, finished: seq<Completion>) {
    && Increasing(finished)
    && (forall i :: 0 <= i < |finished| ==>
          && finished[i].num in before && finished[i].num !in after
          && finished[i].kind == before[finished[i].num].kind)
    && (forall q :: q in after ==> q in before)
    && (forall q :: q in before ==> q in after || Reported(finished, q))
  }

  /** An aborted session is reported in number order, each command as itself. */
  lemma {:induction false} AbortedListing(entries: map<Byte, Pending>, failed: int, reason: Error, from: nat)
    requires from <= 256
    ensures var cs := Aborted(entries, failed, reason, from);
            && Increasing(cs)
            && (forall i :: 0 <= i < |cs| ==>
                  && from <= cs[i].num && cs[i].num in entries
                  && cs[i] == Completion(cs[i].num, entries[cs[i].num].kind, [],
                                         if cs[i].num == failed then reason else SessionAborted))
    decreases 256 - from
  {
    if from < 256 { AbortedListing(entries, failed, reason, from + 1); }
  }

  lemma AbortedFails(entries: map<Byte, Pending>, failed: int, reason: Error, c: Completion)
    requires c in Aborted(entries, failed, reason, 0) && !reason.NoError?
    ensures !c.error.NoError?
  {
    AbortedListing(entries, failed, reason, 0);
  }

  lemma OnWrittenFails(t: Tracker, s: Send, ok: bool, now: int, c: Completion)
    requires c in OnWritten(t, s, ok, now).finished
    ensures !c.error.NoError?
  {
    var reason := if now - t.entries[s.num].queuedAt >= COMMAND_LIFETIME then Timeout else SendFailed;
    AbortedFails(t.entries, s.num, reason, c);
  }

  lemma TickFails(t: Tracker, now: int, c: Completion)
    requires c in Tick(t, now).finished
    ensures !c.error.NoError?
  {
    AbortedFails(t.entries, FirstHopeless(t.entries, now, 0), Timeout, c);
  }

  lemma {:induction false} AbortedCovers(entries: map<Byte, Pending>, failed: int, reason: Error, from: nat, q: Byte)
    requires from <= q && q in entries
    ensures Reported(Aborted(entries, failed, reason, from), q)
    decreases 256 - from
  {
    var cs, rest := Aborted(entries, failed, reason, from), Aborted(entries, failed, reason, from + 1);
    if from == q {
      assert cs[0].num == q;
    } else {
      AbortedCovers(entries, failed, reason, from + 1, q);
      var i :| 0 <= i < |rest| && rest[i].num == q;
      if from in entries { assert cs[i + 1] == rest[i]; }
    }
  }

  lemma BeginValid(t: Tracker, asked: U64, now: int)
    requires Valid(t) && t.entries == map[]
    ensures Valid(Begin(t, asked, now).t) && Begin(t, asked, now).t.entries == map[]
  {}

  lemma EndSessionKeeps(t: Tracker, asked: U64, failed: int, reason: Error, now: int)
    requires Valid(t)
    ensures var turn := EndSession(t, asked, failed, reason, now);
            Valid(turn.t) && Settles(t.entries, turn.t.entries, turn.finished) && turn.t.entries == map[]
            && forall i :: 0 <= i < |turn.finished| ==> turn.finished[i].error in {reason, SessionAborted}
  {
    EndSessionValid(t, asked, failed, reason, now);
    AbortedListing(t.entries, failed, reason, 0);
    forall q | q in t.entries ensures Reported(Aborted(t.entries, failed, reason, 0), q) {
      AbortedCovers(t.entries, failed, reason, 0, q);
    }
  }

  lemma EndSessionValid(t: Tracker, asked: U64, failed: int, reason: Error, now: int)
    requires Valid(t)
    ensures var t1 := EndSession(t, asked, failed, reason, now).t; Valid(t1) && t1.entries == map[]
  {
    var idle := t.(entries := map[], phase := if t.phase.Ready? then Closed else t.phase);
    assert Begin(idle, asked, now).t == EndSession(t, asked, failed, reason, now).t;
    BeginValid(idle, asked, now);
  }

  lemma StartKeeps(t: Tracker, asked: U64, now: int)
    requires Valid(t)
    ensures Valid(Start(t, asked, now).t) && Settles(t.entries, Start(t, asked, now).t.entries, Start(t, asked, now).finished)
  {
    EndSessionKeeps(t, asked, -1, SessionAborted, now);
  }

  lemma SubmitKeeps(t: Tracker, kind: Byte, args: Bytes, now: int)
    requires Valid(t)
    ensures var t1 := Submit(t, kind, args, now).t;
            Valid(t1) && t1.entries.Keys == t.entries.Keys + (if Accepts(t, args) then {t.next} else {})
    ensures Accepts(t, args) ==> t.next !in t.entries
  {
    if Accepts(t, args) {
      SubmitPartition(t, kind, args, now);
      SubmitEntries(t, kind, args, now);
    }
  }

  lemma SubmitPartition(t: Tracker, kind: Byte, args: Bytes, now: int)
    requires Valid(t) && Accepts(t, args)
    ensures Partition(Submit(t, kind, args, now).t) && t.next !in t.entries
  {}

  lemma SubmitEntries(t: Tracker, kind: Byte, args: Bytes, now: int)
    requires Valid(t) && Accepts(t, args)
    ensures Entries(Submit(t, kind, args, now).t)
  {}

  lemma ReceiveKeeps(t: Tracker, q: Byte)
    requires Valid(t) && q < t.next
    ensures Valid(Receive(t, q)) && Receive(t, q).entries.Keys == t.entries.Keys
  {
    ReceiveWindow(t, q);
    ReceiveEntries(t, q);
  }

  lemma ReceiveWindow(t: Tracker, q: Byte)
    requires Shape(t) && Window(t) && q < t.next
    ensures Window(Receive(t, q))
  {}

  lemma ReceiveEntries(t: Tracker, q: Byte)
    requires Entries(t) && |t.entries| <= WINDOW
    ensures Entries(Receive(t, q)) && Receive(t, q).entries.Keys == t.entries.Keys
    ensures |Receive(t, q).entries| <= WINDOW
  {
    var t1 := Receive(t, q);
    assert t1.entries.Keys == t.entries.Keys;
    assert |t1.entries| == |t1.entries.Keys| == |t.entries.Keys|;
  }

  lemma OnWrittenKeeps(t: Tracker, s: Send, ok: bool, now: int)
    requires Valid(t)
    ensures var turn := OnWritten(t, s, ok, now); Valid(turn.t) && Settles(t.entries, turn.t.entries, turn.finished)
  {
    if s.session == t.session && s.kind == SR_COMMAND && t.phase.Ready? && s.num in t.entries && Awaits(t, s) {
      CommandWriteKeeps(t, s, ok, now);
    } else {
      assert OnWritten(t, s, ok, now).t.entries == t.entries && OnWritten(t, s, ok, now).finished == [];
    }
  }

  lemma CommandWriteKeeps(t: Tracker, s: Send, ok: bool, now: int)
    requires Valid(t) && s.session == t.session && s.kind == SR_COMMAND && t.phase.Ready?
    requires s.num in t.entries && Awaits(t, s)
    ensures var turn := OnWritten(t, s, ok, now); Valid(turn.t) && Settles(t.entries, turn.t.entries, turn.finished)
  {
    if now - t.entries[s.num].queuedAt >= COMMAND_LIFETIME {
      EndSessionKeeps(t, t.session, s.num, Timeout, now);
    } else if !ok {
      EndSessionKeeps(t, t.session, s.num, SendFailed, now);
    } else {
      SameKeysKeep(t, OnWritten(t, s, ok, now).t);
    }
  }

  /** Updating entries in place, without adding or removing any. */
  lemma SameKeysKeep(t: Tracker, t1: Tracker)
    requires Valid(t) && t1 == t.(entries := t1.entries) && t1.entries.Keys == t.entries.Keys
    requires forall q :: q in t1.entries ==> EntryOk(t, q, t1.entries[q])
    ensures Valid(t1) && Settles(t.entries, t1.entries, [])
  {
    assert |t1.entries| == |t.entries| by { assert |t1.entries.Keys| == |t.entries.Keys|; }
    assert forall q :: q in t1.entries <==> q in t.entries by { assert t1.entries.Keys == t.entries.Keys; }
    assert Partition(t1);
    assert Entries(t1);
  }

  lemma CompleteKeeps(t: Tracker, q: Byte)
    requires Valid(t) && q in t.entries
    ensures Valid(Complete(t, q)) && Complete(t, q).entries.Keys == t.entries.Keys - {q}
  {
    ReceiveKeeps(t, q);
    CompleteWindow(t, q);
    CompleteEntries(Receive(t, q), q);
  }

  lemma CompleteWindow(t: Tracker, q: Byte)
    requires Valid(t) && q in t.entries && Window(Receive(t, q))
    ensures Window(Complete(t, q)) && Partition(Complete(t, q))
  {}

  lemma CompleteEntries(t: Tracker, q: Byte)
    requires Entries(t) && |t.entries| <= WINDOW && q in t.entries
    ensures var t1 := t.(completed := t.completed[q := true], entries := t.entries - {q});
            Entries(t1) && t1.entries.Keys == t.entries.Keys - {q} && |t1.entries| <= WINDOW
  {
    var rest := t.entries - {q};
    assert rest.Keys == t.entries.Keys - {q};
    assert |rest| == |rest.Keys| == |t.entries.Keys| - 1;
  }

  lemma RolloverKeeps(t: Tracker, now: int)
    requires Valid(t)
    ensures Valid(Rollover(t, now).t) && Rollover(t, now).t.entries == t.entries
  {
    if t.next == 256 && t.entries == map[] { BeginValid(t, t.session, now); }
  }

  lemma OnResultKeeps(t: Tracker, q: Byte, p: Bytes, now: int)
    requires Valid(t) && t.phase.Ready? && q < t.next && |p| >= 11
    ensures var turn := OnResult(t, q, p, now); Valid(turn.t) && Settles(t.entries, turn.t.entries, turn.finished)
  {
    if !t.completed[q] && q in t.entries && t.entries[q].sends != 0 {
      CompleteKeeps(t, q);
      RolloverKeeps(Complete(t, q), now);
      OneSettled(t.entries, OnResult(t, q, p, now).t.entries, OnResult(t, q, p, now).finished[0]);
    }
  }

  lemma OneSettled(before: map<Byte, Pending>, after: map<Byte, Pending>, c: Completion)
    requires c.num in before && c.kind == before[c.num].kind && after.Keys == before.Keys - {c.num}
    ensures Settles(before, after, [c])
  {
    assert [c][0].num == c.num;
    forall q | q in before ensures q in after || Reported([c], q) {
      if q != c.num { assert q in after.Keys; }
    }
    forall q | q in after ensures q in before { assert q in after.Keys; }
  }

  lemma OnFrameKeeps(t: Tracker, f: Frame, now: int)
    requires Valid(t)
    ensures var turn := OnFrame(t, f, now); Valid(turn.t) && Settles(t.entries, turn.t.entries, turn.finished)
  {
    var p := f.payload;
    if 8 <= |p| <= PAYLOAD_MAX && SessionOf(p) == t.session {
      if f.kind == SR_OPEN_ACK {
        OnOpenAckKeeps(t, p, now);
      } else if |p| >= 9 && t.phase.Ready? && p[8] < t.next {
        if f.kind == SR_RECEIVED {
          ReceiveKeeps(t, p[8]);
        } else if f.kind == SR_RESULT && |p| >= 11 {
          OnResultKeeps(t, p[8], p, now);
        }
      }
    }
  }

  lemma OnOpenAckKeeps(t: Tracker, p: Bytes, now: int)
    requires Valid(t) && |p| >= 8
    ensures var turn := OnOpenAck(t, p, now); Valid(turn.t) && turn.t.entries == t.entries && turn.finished == []
  {}

  lemma TickKeeps(t: Tracker, now: int)
    requires Valid(t)
    ensures var turn := Tick(t, now); Valid(turn.t) && Settles(t.entries, turn.t.entries, turn.finished)
  {
    if t.phase.Ready? {
      var q := FirstHopeless(t.entries, now, 0);
      if q < 256 {
        EndSessionKeeps(t, t.session, q, Timeout, now);
      } else {
        SameKeysKeep(t, Requeued(t, now));
      }
    }
  }

  /** No command survives a tick ten seconds after it was submitted, and one nobody
      acknowledged does not survive four. */
  lemma TickDeadline(t: Tracker, now: int, q: Byte)
    requires Valid(t) && q in t.entries
    requires now - t.entries[q].queuedAt >= RESULT_TIMEOUT
          || (!t.entries[q].received && now - t.entries[q].queuedAt >= COMMAND_LIFETIME)
    ensures var turn := Tick(t, now);
            turn.t.entries == map[] && Reported(turn.finished, q)
            && forall i :: 0 <= i < |turn.finished| ==> turn.finished[i].error in {Timeout, SessionAborted}
  {
    var k := FirstHopeless(t.entries, now, 0);
    assert Hopeless(t.entries[q], now);
    EndSessionKeeps(t, t.session, k, Timeout, now);
  }
}
