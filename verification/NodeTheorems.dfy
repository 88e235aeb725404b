/** What the node does with each message, said without reference to how it does it. */
module NodeTheorems {
  import opened Protocol
  import opened Receiver

  // ------------------------------------------------------------- the hook's bytes

  /** A hook's reply of one to 53 bytes is the result; anything else counts as the single
      byte 2, unsupported. */
  predicate ProducedBy(result: Bytes, reply: Reply) {
    if 1 <= |reply| <= 53 then result == reply else result == [2]
  }

  /** The executions of a run carry the hook's replies, one by one, in order. */
  ghost predicate FromHook(env: Env, r: Run) {
    && |r.ran| <= r.runs
    && forall k :: 0 <= k < |r.ran| ==> ProducedBy(r.ran[k].result, env.reply(r.runs - |r.ran| + k))
  }

  lemma ExecuteFromHook(env: Env, r: Run)
    requires FromHook(env, r) && Deliverable(r.node)
    ensures FromHook(env, Execute(env, r))
  {}

  lemma {:induction false} DeliverFromHook(env: Env, r: Run)
    requires FromHook(env, r)
    ensures FromHook(env, Deliver(env, r))
    decreases 256 - r.node.base
  {
    if r.node.base < 256 {
      var r1 := Scan(env, r);
      if Deliverable(r1.node) {
        ExecuteFromHook(env, r1);
        DeliverFromHook(env, Execute(env, r1));
      }
    }
  }

  lemma OnFrameFromHook(env: Env, r: Run, f: Frame)
    requires FromHook(env, r)
    ensures FromHook(env, OnFrame(env, r, f))
  {
    var r0, p := Scan(env, r), f.payload;
    if f.kind == SR_COMMAND && |p| >= 10 {
      DeliverFromHook(env, Emit(Store(r0, env.Read(r.readings), p[8], p[9], p[10..]), ReceivedFrame(r0.node.session, p[8])));
    }
  }

  lemma OnTickFromHook(env: Env, r: Run, order: seq<Byte>)
    requires FromHook(env, r) && Lists(order, TickDue(env, r))
    ensures FromHook(env, OnTick(env, r, order))
  {}

  // --------------------------------------------------------------------- expiry

  /** A gap that a waiting command has outlived by four seconds. */
  ghost predicate GapOutlived(env: Env, n: Node, now: nat) {
    && n.base < 256 && n.base !in n.live
    && exists q :: q in n.live && n.live[q].Buffered? && env.Elapsed(now, n.live[q].receivedAt) >= 4000
  }

  ghost predicate TooOld(env: Env, e: Entry, now: nat) {
    e.Executed? && env.Elapsed(now, e.completedAt) >= 5000
  }

  /** Exactly the entries that are not too old stay, as they were. */
  ghost predicate KeepsYoung(env: Env, live: map<Byte, Entry>, live1: map<Byte, Entry>, now: nat) {
    && (forall q :: q in live1 ==> q in live && live1[q] == live[q])
    && forall q :: q in live ==> (q in live1 <==> !TooOld(env, live[q], now))
  }

  /** Every call first closes the session if a gap was outlived, and otherwise only forgets
      results older than five seconds. */
  lemma ScanExpires(env: Env, r: Run)
    ensures var now, n, r1 := env.Read(r.readings), r.node, Scan(env, r);
            && r1 == r.(node := r1.node, readings := r.readings + 1)
            && if GapOutlived(env, n, now) then r1.node == Node(n.session, n.base, false, map[])
               else r1.node == n.(live := r1.node.live) && KeepsYoung(env, n.live, r1.node.live, now)
  {}

  // ------------------------------------------------------------------- delivery

  predicate Waiting(live: map<Byte, Entry>, q: int) { 0 <= q < 256 && q in live && live[q].Buffered? }

  /** The first number from `b` on that is not waiting. */
  function FirstMissing(live: map<Byte, Entry>, b: nat): (m: nat)
    ensures b <= m && !Waiting(live, m) && (b <= 256 ==> m <= 256) && forall q :: b <= q < m ==> Waiting(live, q)
    decreases 256 - b
  {
    if Waiting(live, b) then FirstMissing(live, b + 1) else b
  }

  lemma MissingIsUnique(live: map<Byte, Entry>, b: nat, m: nat)
    requires b <= m && !Waiting(live, m) && forall q :: b <= q < m ==> Waiting(live, q)
    ensures m == FirstMissing(live, b)
  {}

  /** From `r` to `r1` exactly the numbers from base up to `m` were executed: each once, in
      order, as stored, with the hook's next replies, and each result was sent. */
  ghost predicate Executes(env: Env, r: Run, r1: Run, m: nat) {
    var b, n := r.node.base, m - r.node.base;
    && 0 <= n && (forall q :: b <= q < m ==> Waiting(r.node.live, q))
    && r1.runs == r.runs + n && r.ran <= r1.ran && |r1.ran| == |r.ran| + n
    && r.out <= r1.out && |r1.out| == |r.out| + n
    && forall k :: 0 <= k < n ==> RanAs(env, r, r1, k)
  }

  ghost predicate RanAs(env: Env, r: Run, r1: Run, k: int)
    requires 0 <= k < |r1.ran| - |r.ran| && k < |r1.out| - |r.out| && Waiting(r.node.live, r.node.base + k)
  {
    var q, x := r.node.base + k, r1.ran[|r.ran| + k];
    && x.cmd == Command(r.node.session, q, r.node.live[q].command, r.node.live[q].args)
    && ProducedBy(x.result, env.reply(r.runs + k))
    && r1.out[|r.out| + k] == ResultFrame(r.node.session, q, x.cmd.kind, x.result)
  }

  lemma ScanKeepsWaiting(env: Env, r: Run)
    requires r.node.active && Waiting(r.node.live, r.node.base)
    ensures var r1 := Scan(env, r);
            && r1 == r.(node := r.node.(live := r1.node.live), readings := r.readings + 1)
            && forall q: Byte :: r.node.base <= q && Waiting(r.node.live, q) ==> Waiting(r1.node.live, q) && r1.node.live[q] == r.node.live[q]
    ensures forall q: Byte :: Waiting(Scan(env, r).node.live, q) ==> Waiting(r.node.live, q)
  {}

  /** `r2` is `r` with the number at base executed. */
  ghost predicate OneDone(env: Env, r: Run, r2: Run) {
    var b := r.node.base;
    && Waiting(r.node.live, b)
    && r2.node.session == r.node.session && r2.node.base == b + 1 && r2.node.active && r2.runs == r.runs + 1
    && |r2.ran| == |r.ran| + 1 && r.ran <= r2.ran && |r2.out| == |r.out| + 1 && r.out <= r2.out
    && RanAs(env, r, r2, 0)
    && (forall q :: b < q ==> (Waiting(r2.node.live, q) <==> Waiting(r.node.live, q)))
    && (forall q :: b < q && Waiting(r.node.live, q) ==> r2.node.live[q] == r.node.live[q])
  }

  lemma ExecuteDoes(env: Env, r: Run)
    requires r.node.active && Waiting(r.node.live, r.node.base)
    ensures Deliverable(Scan(env, r).node) && OneDone(env, r, Execute(env, Scan(env, r)))
  {
    ScanKeepsWaiting(env, r);
  }

  lemma NextMissing(live: map<Byte, Entry>, live2: map<Byte, Entry>, b: nat)
    requires Waiting(live, b) && forall q :: b < q ==> (Waiting(live2, q) <==> Waiting(live, q))
    ensures FirstMissing(live2, b + 1) == FirstMissing(live, b)
  {
    MissingIsUnique(live, b, FirstMissing(live2, b + 1));
  }

  lemma NextExecuted(env: Env, r: Run, r2: Run, r3: Run, m: nat)
    requires OneDone(env, r, r2) && Executes(env, r2, r3, m)
    ensures Executes(env, r, r3, m)
  {
    var b := r.node.base;
    forall q | b <= q < m ensures Waiting(r.node.live, q) {
      if q > b { assert Waiting(r2.node.live, q); }
    }
    forall k | 0 <= k < m - b ensures RanAs(env, r, r3, k) {
      if k > 0 {
        assert RanAs(env, r2, r3, k - 1);
      } else {
        assert r3.ran[|r.ran|] == r2.ran[|r.ran|] && r3.out[|r.out|] == r2.out[|r.out|];
      }
    }
  }

  lemma NothingExecuted(env: Env, r: Run)
    requires r.node.active && !Waiting(r.node.live, r.node.base)
    ensures var r1 := Deliver(env, r);
            && r1.ran == r.ran && r1.out == r.out && r1.runs == r.runs
            && r1.node.base == r.node.base && r1.node.session == r.node.session
  {}

  /** Delivery executes exactly the waiting numbers from base up to the first missing one,
      whatever expires meanwhile. */
  lemma {:induction false} DeliverExact(env: Env, r: Run)
    requires r.node.active && r.node.base <= 256
    ensures Executes(env, r, Deliver(env, r), FirstMissing(r.node.live, r.node.base))
    ensures Deliver(env, r).node.session == r.node.session
    ensures Deliver(env, r).node.base == FirstMissing(r.node.live, r.node.base)
    decreases 256 - r.node.base
  {
    if Waiting(r.node.live, r.node.base) {
      ExecuteDoes(env, r);
      var r2 := Execute(env, Scan(env, r));
      NextMissing(r.node.live, r2.node.live, r.node.base);
      DeliverExact(env, r2);
      NextExecuted(env, r, r2, Deliver(env, r2), FirstMissing(r2.node.live, r2.node.base));
    } else {
      NothingExecuted(env, r);
    }
  }

  // --------------------------------------------------------------- what is kept of it

  /** One of the scans of a delivery, from the `first` on, found a result of that age too old. */
  ghost predicate AgedOut(env: Env, r: Run, r1: Run, first: nat, stamp: nat) {
    exists i :: first <= i && r.readings + 2 * i < r1.readings && AgedAt(env, r.readings + 2 * i, stamp)
  }

  ghost predicate AgedAt(env: Env, reading: nat, stamp: nat) { env.Elapsed(env.Read(reading), stamp) >= 5000 }

  /** `e` is still filed under `q`, or the session was closed, or `e` grew too old. */
  ghost predicate StillFiled(env: Env, r: Run, r1: Run, q: Byte, e: Entry, first: nat) {
    e.Executed? && if q in r1.node.live then r1.node.live[q] == e else !r1.node.active || AgedOut(env, r, r1, first, e.completedAt)
  }

  /** The k-th execution of a delivery is filed with its result, stamped with the reading made
      after it, not sent again yet. */
  ghost predicate FiledAs(env: Env, r: Run, r1: Run, k: nat)
    requires |r.ran| + k < |r1.ran| && Waiting(r.node.live, r.node.base + k)
  {
    var q, now := r.node.base + k, env.Read(r.readings + 2 * k + 1);
    StillFiled(env, r, r1, q, Executed(r.node.live[q].command, r.node.live[q].args, r1.ran[|r.ran| + k].result, now, now, 0), k + 1)
  }

  /** After one scan and one execution the rest of the delivery is two readings further on. */
  lemma FiledEarlier(env: Env, r: Run, r2: Run, r1: Run, q: Byte, e: Entry, first: nat)
    requires r2.readings == r.readings + 2 && StillFiled(env, r2, r1, q, e, first)
    ensures StillFiled(env, r, r1, q, e, first + 1)
  {
    if q !in r1.node.live && r1.node.active {
      var i :| first <= i && r2.readings + 2 * i < r1.readings && AgedAt(env, r2.readings + 2 * i, e.completedAt);
      assert r.readings + 2 * (i + 1) == r2.readings + 2 * i;
    }
  }

  lemma FiledSooner(env: Env, r: Run, r1: Run, q: Byte, e: Entry, first: nat)
    requires StillFiled(env, r, r1, q, e, first + 1)
    ensures StillFiled(env, r, r1, q, e, first)
  {}

  lemma {:induction false} MoreReadings(env: Env, r: Run)
    ensures Deliver(env, r).readings >= r.readings + if r.node.base < 256 then 1 else 0
    ensures !r.node.active ==> !Deliver(env, r).node.active
    decreases 256 - r.node.base
  {
    if r.node.base < 256 && Deliverable(Scan(env, r).node) { MoreReadings(env, Execute(env, Scan(env, r))); }
  }

  lemma ScanFiles(env: Env, r: Run, q: Byte)
    requires q in r.node.live && r.node.live[q].Executed?
    ensures var n := Scan(env, r).node;
            if q in n.live then n.live[q] == r.node.live[q] else !n.active || AgedAt(env, r.readings, r.node.live[q].completedAt)
  {}

  lemma FiledAtOnce(env: Env, r: Run, r1: Run, q: Byte, e: Entry)
    requires e.Executed? && q !in r1.node.live && AgedAt(env, r.readings, e.completedAt) && r.readings < r1.readings
    ensures StillFiled(env, r, r1, q, e, 0)
  {
    assert r.readings + 2 * 0 == r.readings;
  }

  lemma {:induction false} GoneStaysGone(env: Env, r: Run, q: Byte)
    requires q < r.node.base && q !in r.node.live
    ensures q !in Deliver(env, r).node.live
    decreases 256 - r.node.base
  {
    if r.node.base < 256 && Deliverable(Scan(env, r).node) { GoneStaysGone(env, Execute(env, Scan(env, r)), q); }
  }

  /** A filed result outlives a delivery unless it grows too old or the session is closed. */
  lemma {:induction false} DeliverFiles(env: Env, r: Run, q: Byte)
    requires q < r.node.base && q in r.node.live && r.node.live[q].Executed?
    ensures StillFiled(env, r, Deliver(env, r), q, r.node.live[q], 0)
    decreases 256 - r.node.base
  {
    if r.node.base < 256 {
      var r1, e := Scan(env, r), r.node.live[q];
      ScanFiles(env, r, q);
      MoreReadings(env, r);
      if Deliverable(r1.node) {
        var r2 := Execute(env, r1);
        if q in r1.node.live {
          DeliverFiles(env, r2, q);
          FiledEarlier(env, r, r2, Deliver(env, r2), q, e, 0);
          FiledSooner(env, r, Deliver(env, r2), q, e, 0);
        } else {
          GoneStaysGone(env, r2, q);
          FiledAtOnce(env, r, Deliver(env, r), q, e);
        }
      } else if q !in r1.node.live && r1.node.active {
        FiledAtOnce(env, r, r1, q, e);
      }
    }
  }

  lemma FiledNext(env: Env, r: Run, r2: Run, r1: Run, k: nat)
    requires OneDone(env, r, r2) && r2.readings == r.readings + 2
    requires |r2.ran| + k < |r1.ran| && Waiting(r2.node.live, r2.node.base + k) && FiledAs(env, r2, r1, k)
    ensures Waiting(r.node.live, r.node.base + k + 1) && FiledAs(env, r, r1, k + 1)
  {
    var q, now := r2.node.base + k, env.Read(r2.readings + 2 * k + 1);
    FiledEarlier(env, r, r2, r1, q,
      Executed(r2.node.live[q].command, r2.node.live[q].args, r1.ran[|r2.ran| + k].result, now, now, 0), k + 1);
  }

  lemma FiledFirst(env: Env, r: Run)
    requires r.node.active && Waiting(r.node.live, r.node.base)
    ensures |r.ran| < |Deliver(env, r).ran| && FiledAs(env, r, Deliver(env, r), 0)
  {
    ExecuteDoes(env, r);
    var r2, q := Execute(env, Scan(env, r)), r.node.base;
    DeliverExact(env, r2);
    DeliverFiles(env, r2, q);
    FiledEarlier(env, r, r2, Deliver(env, r2), q, r2.node.live[q], 0);
  }

  lemma DeliverOnwards(env: Env, r: Run) returns (r2: Run)
    requires r.node.active && Waiting(r.node.live, r.node.base)
    ensures OneDone(env, r, r2) && r2.readings == r.readings + 2 && Deliver(env, r) == Deliver(env, r2)
    ensures FirstMissing(r2.node.live, r2.node.base) == FirstMissing(r.node.live, r.node.base)
  {
    ExecuteDoes(env, r);
    r2 := Execute(env, Scan(env, r));
    NextMissing(r.node.live, r2.node.live, r.node.base);
  }

  /** Every execution of a delivery is filed. */
  lemma {:induction false} AllFiled(env: Env, r: Run, k: nat)
    requires r.node.active && k < FirstMissing(r.node.live, r.node.base) - r.node.base
    ensures |r.ran| + k < |Deliver(env, r).ran| && FiledAs(env, r, Deliver(env, r), k)
    decreases k
  {
    if k == 0 {
      FiledFirst(env, r);
    } else {
      var r2 := DeliverOnwards(env, r);
      AllFiled(env, r2, k - 1);
      FiledNext(env, r, r2, Deliver(env, r2), k - 1);
    }
  }

  /** What waits beyond the first missing number keeps waiting, unless the session is closed. */
  lemma {:induction false} KeptAside(env: Env, r: Run, q: Byte)
    requires r.node.active && Waiting(r.node.live, q) && q > FirstMissing(r.node.live, r.node.base)
    ensures Deliver(env, r).node.active ==> q in Deliver(env, r).node.live && Deliver(env, r).node.live[q] == r.node.live[q]
    decreases 256 - r.node.base
  {
    if Waiting(r.node.live, r.node.base) {
      var r2 := DeliverOnwards(env, r);
      KeptAside(env, r2, q);
    }
  }

  // ------------------------------------------------------------- message by message

  /** OPEN: one answer, with the higher of the two sessions; accepted exactly when the
      session is new, or is the present one and still alive. A new session starts empty,
      any other OPEN changes nothing. */
  lemma OpenAnswered(env: Env, r: Run, p: Bytes)
    requires |p| == 8
    ensures var r0, r1, s := Scan(env, r), OnFrame(env, r, Frame(0x23, p)), SessionOf(p);
            var n := r0.node;
            && r1 == r0.(node := r1.node, out := r1.out)
            && r1.out == r0.out + [OpenAckFrame(s, if s > n.session then s else n.session,
                                                if s > n.session || (s == n.session && n.active) then 0 else 1)]
            && r1.node == (if s > n.session then Node(s, 0, true, map[]) else n)
  {}

  /** RESULT_ACK of exactly nine bytes frees that result and does nothing else. */
  lemma AckFrees(env: Env, r: Run, q: Byte)
    requires Scan(env, r).node.active
    ensures var r0 := Scan(env, r); var n := r0.node;
            var r1 := OnFrame(env, r, Frame(0x25, U64Bytes(n.session) + [q]));
            && r1 == r0.(node := r1.node)
            && r1.node == n.(live := if q in n.live && n.live[q].Executed? then n.live - {q} else n.live)
  {
    var n := Scan(env, r).node;
    SessionRoundTrip(n.session, [q]);
  }

  /** The node, after the scan every call starts with, may act on the command. */
  ghost predicate Heard(env: Env, r: Run, c: Command) {
    Scan(env, r).node.active && Scan(env, r).node.session == c.session && |c.args| <= 53
  }

  function RepliesTo(e: Entry, c: Command): seq<Frame> {
    if e.command != c.kind || e.args != c.args then []
    else if e.Buffered? then [ReceivedFrame(c.session, c.num)]
    else [ReceivedFrame(c.session, c.num), ResultFrame(c.session, c.num, c.kind, e.result)]
  }

  /** A command the node already has: confirmed again if it is the same one, and its result
      sent again if it has run; a different one under that number is ignored. */
  lemma ReplayAnswered(env: Env, r: Run, c: Command)
    requires Heard(env, r, c) && c.num in Scan(env, r).node.live
    ensures var r0 := Scan(env, r); var e := r0.node.live[c.num];
            OnFrame(env, r, CommandFrame(c)) == r0.(out := r0.out + RepliesTo(e, c))
  {
    BodyFields(c.session, c.num, c.kind, c.args);
  }

  /** A number left of the window is confirmed and not run again; one at or beyond its right
      edge is ignored, and so is any new one while all sixteen slots are taken. */
  lemma OutsideAnswered(env: Env, r: Run, c: Command)
    requires Heard(env, r, c) && c.num !in Scan(env, r).node.live
    requires c.num < Scan(env, r).node.base || c.num >= Scan(env, r).node.base + 8 || |Scan(env, r).node.live| >= 16
    ensures OnFrame(env, r, CommandFrame(c)) == Scan(env, r).(out := OnFrame(env, r, CommandFrame(c)).out)
    ensures c.num < Scan(env, r).node.base ==> OnFrame(env, r, CommandFrame(c)).out == r.out + [ReceivedFrame(c.session, c.num)]
    ensures c.num >= Scan(env, r).node.base ==> OnFrame(env, r, CommandFrame(c)).out == r.out
  {
    BodyFields(c.session, c.num, c.kind, c.args);
  }

  /** The run with a new command confirmed and put aside. */
  function Confirmed(r0: Run, now: nat, c: Command): Run {
    r0.(node := r0.node.(live := r0.node.live[c.num := Buffered(c.kind, c.args, now)]),
        out := r0.out + [ReceivedFrame(c.session, c.num)])
  }

  /** A new command inside the window is confirmed; then everything from base up to the
      first number still missing is executed, and nothing else. */
  lemma NewCommandAnswered(env: Env, r: Run, c: Command)
    requires Heard(env, r, c) && c.num !in Scan(env, r).node.live && |Scan(env, r).node.live| < 16
    requires Scan(env, r).node.base <= c.num < Scan(env, r).node.base + 8
    ensures var r0 := Confirmed(Scan(env, r), env.Read(r.readings), c);
            var m := FirstMissing(r0.node.live, r0.node.base);
            && Executes(env, r0, OnFrame(env, r, CommandFrame(c)), m)
            && OnFrame(env, r, CommandFrame(c)).node.base == m
            && (c.num == r0.node.base ==> m > c.num)
  {
    BodyFields(c.session, c.num, c.kind, c.args);
    DeliverExact(env, Confirmed(Scan(env, r), env.Read(r.readings), c));
  }

  /** Each of these executions leaves its result on file, and what waits beyond the gap is
      untouched. */
  lemma NewCommandFiled(env: Env, r: Run, c: Command, k: nat)
    requires Heard(env, r, c) && c.num !in Scan(env, r).node.live && |Scan(env, r).node.live| < 16
    requires Scan(env, r).node.base <= c.num < Scan(env, r).node.base + 8
    ensures var r0, r1 := Confirmed(Scan(env, r), env.Read(r.readings), c), OnFrame(env, r, CommandFrame(c));
            var m := FirstMissing(r0.node.live, r0.node.base);
            && (k < m - r0.node.base ==> |r0.ran| + k < |r1.ran| && FiledAs(env, r0, r1, k))
            && (m < k && Waiting(r0.node.live, k) && r1.node.active ==> k in r1.node.live && r1.node.live[k] == r0.node.live[k])
  {
    BodyFields(c.session, c.num, c.kind, c.args);
    var r0 := Confirmed(Scan(env, r), env.Read(r.readings), c);
    var m := FirstMissing(r0.node.live, r0.node.base);
    if k < m - r0.node.base { AllFiled(env, r0, k); }
    if m < k && Waiting(r0.node.live, k) { KeptAside(env, r0, k); }
  }

  /** Results to be sent again: executed, sent fewer than three times since, and not
      confirmed for half a second. */
  ghost predicate Unconfirmed(env: Env, now: nat, e: Entry) {
    e.Executed? && e.retries < 3 && env.Elapsed(now, e.sentAt) >= 500
  }

  ghost predicate ChosenToResend(env: Env, n: Node, now: nat, order: seq<Byte>) {
    Distinct(order) && forall q :: q in order <==> q in n.live && Unconfirmed(env, now, n.live[q])
  }

  /** The result frames of the listed numbers, in that order. */
  ghost predicate SentAgain(n: Node, order: seq<Byte>, frames: seq<Frame>) {
    |frames| == |order| && forall i :: 0 <= i < |order| ==> IsResult(n, order[i], frames[i])
  }

  ghost predicate IsResult(n: Node, q: Byte, f: Frame) {
    q in n.live && n.live[q].Executed? && f == ResultFrame(n.session, q, n.live[q].command, n.live[q].result)
  }

  ghost predicate Stamped(env: Env, n: Node, now: nat, live: map<Byte, Entry>) {
    && live.Keys == n.live.Keys
    && forall q :: q in n.live ==> IsStamped(env, now, n.live[q], live[q])
  }

  ghost predicate IsStamped(env: Env, now: nat, e: Entry, e1: Entry) {
    if Unconfirmed(env, now, e) then e1 == e.(retries := e.retries + 1, sentAt := now) else e1 == e
  }

  /** A tick sends exactly those results again, once each, and counts and stamps exactly
      those. */
  lemma TickAnswered(env: Env, r: Run, order: seq<Byte>)
    requires Lists(order, TickDue(env, r)) && Scan(env, r).node.active
    ensures ChosenToResend(env, Scan(env, r).node, env.Read(r.readings), order)
    ensures r.out <= OnTick(env, r, order).out && SentAgain(Scan(env, r).node, order, OnTick(env, r, order).out[|r.out|..])
    ensures Stamped(env, Scan(env, r).node, env.Read(r.readings), OnTick(env, r, order).node.live)
    ensures OnTick(env, r, order).ran == r.ran
  {
    var n, now := Scan(env, r).node, env.Read(r.readings);
    TickChooses(env, n, now, order);
    TickStamps(env, n, now);
    assert forall i :: 0 <= i < |order| ==> order[i] in order;
  }

  lemma TickChooses(env: Env, n: Node, now: nat, order: seq<Byte>)
    requires n.active && Lists(order, DueSet(env, n, now))
    ensures ChosenToResend(env, n, now, order)
  {
    forall q: Byte ensures q in order <==> q in n.live && Unconfirmed(env, now, n.live[q]) {
      assert q in DueSet(env, n, now) <==> q in order;
    }
  }

  lemma TickStamps(env: Env, n: Node, now: nat)
    requires n.active
    ensures Stamped(env, n, now, Resend(env, n, now).live)
  {
    assert Resend(env, n, now).live.Keys == n.live.Keys;
  }
}
