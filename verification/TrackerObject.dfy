/** The gateway's tracker as it is stored and run: fields, three 256-element arrays and
    the map of commands in flight, all updated in place. Every entry point does exactly
    what the state machine in `Tracker` does. */
module TrackerObject {
  import opened Protocol
  import opened Tracker
  import Spec = Tracker

  class CommandTracker {
    var phase: Phase
    var session: U64
    var base: nat
    var next: nat
    const received: array<bool>
    const completed: array<bool>
    const kinds: array<Byte>
    var entries: map<Byte, Pending>
    var openingAt: int
    var openSentAt: int
    var openSends: nat
    var openPending: bool

    ghost predicate Valid()
      reads this, received, completed, kinds
    {
      received != completed && Shape(View())
    }

    ghost function View(): Tracker
      reads this, received, completed, kinds
    {
      Tracker(phase, session, base, next, received[..], completed[..], kinds[..], entries,
              openingAt, openSentAt, openSends, openPending)
    }

    constructor ()
      ensures Valid() && View() == Initial() && fresh(received) && fresh(completed) && fresh(kinds)
    {
      phase, session, base, next := Closed, 0, 0, 0;
      received := new bool[256](_ => false);
      completed := new bool[256](_ => false);
      kinds := new Byte[256](_ => 0);
      entries := map[];
      openingAt, openSentAt, openSends, openPending := 0, 0, 0, false;
      new;
      assert View() == Initial();
    }

    method ResetWindow()
      requires Valid()
      modifies this`base, this`next, received, completed, kinds
      ensures base == 0 && next == 0
      ensures received[..] == Fill(false) && completed[..] == Fill(false) && kinds[..] == Fill(0)
    {
      base, next := 0, 0;
      for i := 0 to 256
        invariant base == 0 && next == 0
        invariant forall j :: 0 <= j < i ==> !received[j] && !completed[j] && kinds[j] == 0
      {
        received[i], completed[i], kinds[i] := false, false, 0;
      }
    }

    method Begin(asked: U64, now: int) returns (send: seq<Send>)
      requires Valid()
      modifies this, received, completed, kinds
      ensures Valid() && Turn(View(), send, []) == Spec.Begin(old(View()), asked, now)
    {
      var s := asked;
      if s <= session {
        if session == U64_MAX {
          phase := Failed;
          return [];
        }
        s := session + 1;
      }
      session := s;
      ResetWindow();
      openingAt, openSends, openPending, phase := now, 0, true, Opening;
      send := [Send(SR_OPEN, session, [], 0, openSends)];
    }

    /** Reports every command in flight, in number order. */
    method ListAborted(failed: int, reason: Error) returns (finished: seq<Completion>)
      ensures finished == Aborted(entries, failed, reason, 0)
    {
      finished := [];
      for q := 0 to 256
        invariant finished + Aborted(entries, failed, reason, q) == Aborted(entries, failed, reason, 0)
      {
        if q in entries {
          var c := Completion(q, entries[q].kind, [], if q == failed then reason else SessionAborted);
          assert finished + ([c] + Aborted(entries, failed, reason, q + 1)) ==
                 finished + [c] + Aborted(entries, failed, reason, q + 1);
          finished := finished + [c];
        }
      }
    }

    method EndSession(asked: U64, failed: int, reason: Error, now: int)
      returns (send: seq<Send>, finished: seq<Completion>)
      requires Valid()
      modifies this, received, completed, kinds
      ensures Valid() && Turn(View(), send, finished) == Spec.EndSession(old(View()), asked, failed, reason, now)
    {
      finished := ListAborted(failed, reason);
      entries := map[];
      send := Begin(asked, now);
    }

    method Start(asked: U64, now: int) returns (send: seq<Send>, finished: seq<Completion>)
      requires Valid()
      modifies this, received, completed, kinds
      ensures Valid() && Turn(View(), send, finished) == Spec.Start(old(View()), asked, now)
    {
      send, finished := EndSession(asked, -1, SessionAborted, now);
    }

    method Submit(kind: Byte, args: Bytes, now: int) returns (send: seq<Send>)
      requires Valid()
      modifies this`next, this`entries, kinds
      ensures Valid() && Turn(View(), send, []) == Spec.Submit(old(View()), kind, args, now)
    {
      var room := phase.Ready? && next < 256 && next < base + WINDOW && |entries| < WINDOW;
      if !room || |args| > ARGS_MAX { return []; }
      var q := next;
      next := next + 1;
      entries := entries[q := Pending(kind, args, now, 0, 0, true, false)];
      kinds[q] := kind;
      send := [Send(SR_COMMAND, session, [q, kind] + args, q, 0)];
    }

    method Receive(q: Byte)
      requires Valid()
      modifies this`base, this`entries, received
      ensures Valid() && View() == Spec.Receive(old(View()), q)
    {
      received[q] := true;
      if q in entries { entries := entries[q := entries[q].(received := true)]; }
      ghost var t := View();
      while base < next && received[base]
        invariant base <= next && View() == t.(base := base)
        invariant FirstGap(t.received, base, next) == FirstGap(t.received, t.base, next)
      {
        base := base + 1;
      }
    }

    method CanSend(s: Send, now: int) returns (yes: bool)
      requires Valid()
      ensures yes == Spec.CanSend(View(), s, now)
    {
      if s.session != session { return false; }
      if s.kind == SR_OPEN {
        return phase.Opening? && openPending && s.attempt == openSends && now - openingAt < COMMAND_LIFETIME;
      }
      if !phase.Ready? { return false; }
      if s.kind == SR_RESULT_ACK { return completed[s.num]; }
      if s.kind != SR_COMMAND || s.num !in entries { return false; }
      var e := entries[s.num];
      return e.pending && !e.received && s.attempt == e.sends && now - e.queuedAt < COMMAND_LIFETIME;
    }

    method OnWritten(s: Send, ok: bool, now: int) returns (send: seq<Send>, finished: seq<Completion>)
      requires Valid()
      modifies this, received, completed, kinds
      ensures Valid() && Turn(View(), send, finished) == Spec.OnWritten(old(View()), s, ok, now)
    {
      send, finished := [], [];
      if s.session != session { return; }
      if s.kind == SR_OPEN {
        if !phase.Opening? || !openPending || s.attempt != openSends { return; }
        openPending := false;
        if !ok || now - openingAt >= COMMAND_LIFETIME {
          phase := Failed;
          return;
        }
        openSends, openSentAt := openSends + 1, now;
        return;
      }
      if !phase.Ready? || s.kind != SR_COMMAND || s.num !in entries { return; }
      var e := entries[s.num];
      if !e.pending || e.received || s.attempt != e.sends { return; }
      if now - e.queuedAt >= COMMAND_LIFETIME {
        send, finished := EndSession(session, s.num, Timeout, now);
        return;
      }
      if !ok {
        send, finished := EndSession(session, s.num, SendFailed, now);
        return;
      }
      entries := entries[s.num := e.(pending := false, sends := e.sends + 1, sentAt := now)];
    }

    method OnFrame(f: Frame, now: int) returns (send: seq<Send>, finished: seq<Completion>)
      requires Valid()
      modifies this, received, completed, kinds
      ensures Valid() && Turn(View(), send, finished) == Spec.OnFrame(old(View()), f, now)
    {
      send, finished := [], [];
      var p := f.payload;
      if |p| < 8 || |p| > PAYLOAD_MAX { return; }
      var s := ReadU64(p);
      if s != session { return; }
      if f.kind == SR_OPEN_ACK {
        send := OnOpenAck(p, now);
        return;
      }
      if !phase.Ready? || |p| < 9 { return; }
      var q := p[8];
      if q >= next { return; }
      if f.kind == SR_RECEIVED {
        if |p| == 9 && q in entries && entries[q].sends != 0 { Receive(q); }
        return;
      }
      if f.kind != SR_RESULT || |p| < 11 || p[9] != kinds[q] || !ResultValid(p[9], p) { return; }
      send, finished := OnResult(q, p, now);
    }

    method OnOpenAck(p: Bytes, now: int) returns (send: seq<Send>)
      requires Valid() && |p| >= 8
      modifies this`phase, this`session, this`openPending
      ensures Valid() && Turn(View(), send, []) == Spec.OnOpenAck(old(View()), p, now)
    {
      send := [];
      if |p| != 17 || !phase.Opening? || openSends == 0 { return; }
      if now - openingAt >= COMMAND_LIFETIME {
        phase := Failed;
        return;
      }
      var high := ReadU64(p[8..]);
      if p[16] == RC_OK && high == session {
        phase, openPending := Ready, false;
      } else if p[16] == RC_BAD_PARAM && high >= session {
        if high == U64_MAX || openSends > MAX_RETRY {
          phase := Failed;
        } else {
          session, openPending := high + 1, true;
          send := [Send(SR_OPEN, session, [], 0, openSends)];
        }
      }
    }

    method OnResult(q: Byte, p: Bytes, now: int) returns (send: seq<Send>, finished: seq<Completion>)
      requires Valid() && |p| >= 11
      modifies this, received, completed, kinds
      ensures Valid() && Turn(View(), send, finished) == Spec.OnResult(old(View()), q, p, now)
    {
      send, finished := [], [];
      var ack := Send(SR_RESULT_ACK, session, [q], q, 0);
      if completed[q] { return [ack], []; }
      if q !in entries || entries[q].sends == 0 { return; }
      finished := [Completion(q, entries[q].kind, p[10..], NoError)];
      Finish(q);
      var open: seq<Send> := [];
      if next == 256 && entries == map[] { open := Begin(session, now); }
      send := [ack] + open;
    }

    method Finish(q: Byte)
      requires Valid() && q in entries
      modifies this`base, this`entries, received, completed
      ensures Valid() && View() == Complete(old(View()), q)
    {
      Receive(q);
      completed[q] := true;
      entries := entries - {q};
    }

    method Tick(now: int) returns (send: seq<Send>, finished: seq<Completion>)
      requires Valid()
      modifies this, received, completed, kinds
      ensures Valid() && Turn(View(), send, finished) == Spec.Tick(old(View()), now)
    {
      send, finished := [], [];
      if phase.Opening? {
        send := OpeningTick(now);
        return;
      }
      if !phase.Ready? { return; }
      var q: int := 0;
      while q < 256
        invariant 0 <= q <= 256 && View() == old(View()) && phase.Ready?
        invariant FirstHopeless(entries, now, 0) == FirstHopeless(entries, now, q)
      {
        if q in entries && Hopeless(entries[q], now) {
          send, finished := EndSession(session, q, Timeout, now);
          return;
        }
        q := q + 1;
      }
      send := RetryPass(now);
    }

    method OpeningTick(now: int) returns (send: seq<Send>)
      requires Valid() && phase.Opening?
      modifies this`phase, this`openPending
      ensures Valid() && Turn(View(), send, []) == Spec.Tick(old(View()), now)
    {
      send := [];
      if now - openingAt >= COMMAND_LIFETIME {
        phase := Failed;
      } else if !openPending && now - openSentAt >= ACK_TIMEOUT {
        if openSends > MAX_RETRY {
          phase := Failed;
        } else {
          openPending := true;
          send := [Send(SR_OPEN, session, [], 0, openSends)];
        }
      }
    }

    /** Queues every overdue, unacknowledged command again, in number order. */
    method RetryPass(now: int) returns (send: seq<Send>)
      requires Valid()
      modifies this`entries
      ensures Valid() && View() == Requeued(old(View()), now) && send == Retries(old(View()), now, 0)
    {
      ghost var t := View();
      send := [];
      for q := 0 to 256
        invariant Halfway(t.entries, entries, now, q)
        invariant send + Retries(t, now, q) == Retries(t, now, 0)
      {
        var more := RetryOne(q, now, t);
        assert send + more + Retries(t, now, q + 1) == send + (more + Retries(t, now, q + 1));
        send := send + more;
      }
      assert entries == Requeued(t, now).entries;
    }

    method RetryOne(q: Byte, now: int, ghost t: Tracker) returns (send: seq<Send>)
      requires session == t.session && Halfway(t.entries, entries, now, q)
      modifies this`entries
      ensures Halfway(t.entries, entries, now, q + 1)
      ensures send + Retries(t, now, q + 1) == Retries(t, now, q)
    {
      send := [];
      if q in entries && Retry(entries[q], now) {
        var e := entries[q];
        send := [Send(SR_COMMAND, session, [q, e.kind] + e.args, q, e.sends)];
        entries := entries[q := e.(pending := true)];
      }
    }
  }

  /** Entries below q have been requeued where due, the others not yet looked at. */
  ghost predicate Halfway(before: map<Byte, Pending>, now: map<Byte, Pending>, at: int, q: int) {
    && (forall k :: k in now <==> k in before)
    && (forall k :: k in before ==>
          now[k] == if k < q && Retry(before[k], at) then before[k].(pending := true) else before[k])
  }
}
