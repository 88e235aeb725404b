/** The node reads a 32-bit millisecond clock that wraps. As long as no call lies too
    far behind the last expiry scan of the previous one, the node cannot be told from
    one that reads an unbounded clock. */
module WrapClock {
  import opened Protocol
  import opened Receiver

  const WRAP: nat := 0x1_0000_0000

  datatype Call = Got(frame: Frame) | Ticked(order: seq<Byte>)

  function Wrapping(env: Env): Env { env.(modulus := WRAP) }
  function Unbounded(env: Env): Env { env.(modulus := 0) }

  ghost predicate Monotone(clock: nat -> nat) {
    forall i: nat, j: nat :: i <= j ==> clock(i) <= clock(j)
  }

  // -------------------------------------------------------- equal up to wrapping

  ghost predicate SameEntry(w: Entry, u: Entry) {
    match u
    case Buffered(command, args, at) => w == Buffered(command, args, at % WRAP)
    case Executed(command, args, result, done, sent, retries) =>
      w == Executed(command, args, result, done % WRAP, sent % WRAP, retries)
  }

  ghost predicate SameNode(w: Node, u: Node) {
    && w.session == u.session && w.base == u.base && w.active == u.active
    && w.live.Keys == u.live.Keys
    && forall q :: q in u.live ==> SameEntry(w.live[q], u.live[q])
  }

  /** Everything visible from outside is equal; stored stamps agree modulo 2^32. */
  ghost predicate Same(w: Run, u: Run) {
    SameNode(w.node, u.node) && w == Run(w.node, u.readings, u.runs, u.out, u.ran)
  }

  // ------------------------------------------------------------------ how old

  ghost predicate Recent(e: Entry, from: int, to: int) {
    match e
    case Buffered(_, _, at) => from < at <= to
    case Executed(_, _, _, done, sent, _) => from < done <= sent <= to
  }

  /** No stored stamp is more than 5 s older than `scan`, or newer than `to`. */
  ghost predicate Aged(n: Node, scan: int, to: int) {
    forall q :: q in n.live ==> Recent(n.live[q], scan - RESULT_TTL, to)
  }

  /** The arithmetic core: within one turn of the counter, wrapped subtraction is exact. */
  lemma ElapsedAgrees(env: Env, now: nat, stamp: nat)
    requires stamp <= now < stamp + WRAP
    ensures Wrapping(env).Elapsed(now % WRAP, stamp % WRAP) == Unbounded(env).Elapsed(now, stamp)
  {
    var a, b := now / WRAP, stamp / WRAP;
    assert now == a * WRAP + now % WRAP && stamp == b * WRAP + stamp % WRAP;
    assert a == b || a == b + 1;
  }

  lemma DecisionsAgree(env: Env, now: nat, w: Entry, u: Entry, scan: int)
    requires SameEntry(w, u) && Recent(u, scan - RESULT_TTL, now) && now - scan <= WRAP - RESULT_TTL
    ensures Overdue(Wrapping(env), now % WRAP, w) == Overdue(Unbounded(env), now, u)
    ensures Stale(Wrapping(env), now % WRAP, w) == Stale(Unbounded(env), now, u)
    ensures Due(Wrapping(env), now % WRAP, w) == Due(Unbounded(env), now, u)
  {
    match u
    case Buffered(_, _, at) => ElapsedAgrees(env, now, at);
    case Executed(_, _, _, done, sent, _) =>
      ElapsedAgrees(env, now, done);
      ElapsedAgrees(env, now, sent);
  }

  // --------------------------------------------------------------- piece by piece

  lemma ExpireSame(env: Env, now: nat, w: Node, u: Node, scan: int)
    requires SameNode(w, u) && Aged(u, scan, now) && now - scan <= WRAP - RESULT_TTL
    ensures SameNode(Expire(Wrapping(env), w, now % WRAP), Expire(Unbounded(env), u, now))
  {
    forall q | q in u.live
      ensures Overdue(Wrapping(env), now % WRAP, w.live[q]) == Overdue(Unbounded(env), now, u.live[q])
           && Stale(Wrapping(env), now % WRAP, w.live[q]) == Stale(Unbounded(env), now, u.live[q])
    {
      DecisionsAgree(env, now, w.live[q], u.live[q], scan);
    }
    assert forall q :: q in w.live <==> q in u.live by { assert w.live.Keys == u.live.Keys; }
    var w1, u1 := Expire(Wrapping(env), w, now % WRAP), Expire(Unbounded(env), u, now);
    assert forall q :: q in w1.live <==> q in u1.live;
  }

  /** What is left after a scan that saw a gap, or had nothing buffered, is young. */
  lemma ExpireYoung(env: Env, now: nat, u: Node, scan: int)
    requires Aged(u, scan, now) && Window(u) && (Gap(u) || u.base == 256)
    ensures Aged(Expire(Unbounded(env), u, now), now, now)
  {}

  lemma ScanSame(env: Env, w: Run, u: Run, scan: int)
    requires Same(w, u) && Aged(u.node, scan, env.clock(u.readings))
    requires env.clock(u.readings) - scan <= WRAP - RESULT_TTL
    ensures Same(Scan(Wrapping(env), w), Scan(Unbounded(env), u))
    ensures Aged(Scan(Unbounded(env), u).node, scan, env.clock(u.readings))
  {
    ExpireSame(env, env.clock(u.readings), w.node, u.node, scan);
  }

  lemma ExecuteSame(env: Env, w: Run, u: Run)
    requires Same(w, u) && Deliverable(u.node)
    ensures Deliverable(w.node) && Same(Execute(Wrapping(env), w), Execute(Unbounded(env), u))
  {
    assert u.node.base in w.node.live.Keys;
    var w1, u1 := Execute(Wrapping(env), w), Execute(Unbounded(env), u);
    assert w1.node.live.Keys == w.node.live.Keys && u1.node.live.Keys == u.node.live.Keys;
  }

  /** Later bounds follow from earlier ones when the clock moves on. */
  lemma AgedLater(n: Node, scan: int, to: int, scan1: int, to1: int)
    requires Aged(n, scan, to) && scan1 <= scan && to <= to1
    ensures Aged(n, scan1, to1)
  {}

  // -------------------------------------------------------------------- delivery

  /** True time of the last expiry scan made by Deliver, `at` if it makes none. */
  ghost function DeliverScan(env: Env, u: Run, at: nat): nat
    decreases 256 - u.node.base
  {
    if u.node.base >= 256 then at else
    var u1 := Scan(Unbounded(env), u);
    if !Deliverable(u1.node) then env.clock(u.readings)
    else DeliverScan(env, Execute(Unbounded(env), u1), env.clock(u.readings))
  }

  /** All clock readings of a call, up to but excluding index `end`, are near `scan`. */
  ghost predicate Near(env: Env, begin: nat, end: nat, scan: int) {
    forall k: nat :: begin <= k < end ==> env.clock(k) - scan <= WRAP - RESULT_TTL
  }

  lemma {:induction false} DeliverReads(env: Env, u: Run)
    ensures Deliver(env, u).readings >= u.readings
    ensures u.node.base < 256 ==> Deliver(env, u).readings > u.readings
    ensures u.node.base < 256 && Deliverable(Scan(env, u).node) ==> Deliver(env, u).readings > u.readings + 1
    decreases 256 - u.node.base
  {
    if u.node.base < 256 {
      var u1 := Scan(env, u);
      if Deliverable(u1.node) { DeliverReads(env, Execute(env, u1)); }
    }
  }

  lemma ExecuteAged(env: Env, u: Run, scan: int)
    requires Monotone(env.clock) && Deliverable(u.node) && u.readings > 0
    requires Aged(u.node, scan, env.clock(u.readings - 1)) && scan <= env.clock(u.readings)
    ensures Aged(Execute(Unbounded(env), u).node, scan, env.clock(u.readings))
  {
    assert env.clock(u.readings - 1) <= env.clock(u.readings);
  }

  lemma {:induction false} DeliverSame(env: Env, w: Run, u: Run, scan: int)
    requires Monotone(env.clock) && Same(w, u) && u.readings > 0
    requires Aged(u.node, scan, env.clock(u.readings - 1)) && scan <= env.clock(u.readings - 1)
    requires Near(env, u.readings, Deliver(Unbounded(env), u).readings, scan)
    ensures Same(Deliver(Wrapping(env), w), Deliver(Unbounded(env), u))
    decreases 256 - u.node.base
  {
    if u.node.base < 256 {
      DeliverReads(Unbounded(env), u);
      assert env.clock(u.readings - 1) <= env.clock(u.readings);
      AgedLater(u.node, scan, env.clock(u.readings - 1), scan, env.clock(u.readings));
      ScanSame(env, w, u, scan);
      var w1, u1 := Scan(Wrapping(env), w), Scan(Unbounded(env), u);
      assert Deliverable(w1.node) == Deliverable(u1.node) by { assert w1.node.live.Keys == u1.node.live.Keys; }
      if Deliverable(u1.node) {
        ExecuteSame(env, w1, u1);
        ExecuteAged(env, u1, scan);
        assert env.clock(u.readings) <= env.clock(u.readings + 1);
        DeliverSame(env, Execute(Wrapping(env), w1), Execute(Unbounded(env), u1), scan);
      }
    }
  }

  /** Like Aged, but for filed results only; a buffered stamp just is not in the future. */
  ghost predicate ResultsAged(n: Node, scan: int, to: int) {
    forall q :: q in n.live ==>
      Recent(n.live[q], if n.live[q].Executed? then scan - RESULT_TTL else -1, to)
  }

  lemma ScanAgesResults(env: Env, u: Run, scan: int, to: int)
    requires ResultsAged(u.node, scan, to) && to <= env.clock(u.readings)
    ensures ResultsAged(Scan(Unbounded(env), u).node, env.clock(u.readings), env.clock(u.readings))
    ensures Window(u.node) && (Gap(u.node) || u.node.base == 256) ==>
              Aged(Scan(Unbounded(env), u).node, env.clock(u.readings), env.clock(u.readings))
  {}

  lemma ExecuteAgesResults(env: Env, u: Run, scan: int)
    requires Deliverable(u.node) && ResultsAged(u.node, scan, scan) && scan <= env.clock(u.readings)
    ensures ResultsAged(Execute(Unbounded(env), u).node, scan, env.clock(u.readings))
  {}

  /** A scan after which nothing is deliverable has seen the gap, or closed the session. */
  lemma LastScanYoung(env: Env, u: Run, scan: int, to: int)
    requires Window(u.node) && u.node.base < 256 && ResultsAged(u.node, scan, to) && to <= env.clock(u.readings)
    requires !Deliverable(Scan(Unbounded(env), u).node)
    ensures Aged(Scan(Unbounded(env), u).node, env.clock(u.readings), env.clock(u.readings))
  {
    ScanAgesResults(env, u, scan, to);
    ExpireKeeps(Unbounded(env), u.node, env.clock(u.readings));
  }

  /** After a delivery every stamp is within 5 s of the last scan made. */
  lemma {:induction false} DeliverYoung(env: Env, u: Run, scan: nat)
    requires Monotone(env.clock) && Window(u.node) && u.readings > 0 && scan <= env.clock(u.readings - 1)
    requires ResultsAged(u.node, scan, env.clock(u.readings - 1))
    ensures Deliver(Unbounded(env), u).readings > 0
    ensures scan <= DeliverScan(env, u, scan) <= env.clock(Deliver(Unbounded(env), u).readings - 1)
    ensures Aged(Deliver(Unbounded(env), u).node, DeliverScan(env, u, scan),
                 env.clock(Deliver(Unbounded(env), u).readings - 1))
    decreases 256 - u.node.base
  {
    if u.node.base < 256 {
      var now := env.clock(u.readings);
      assert env.clock(u.readings - 1) <= now;
      var u1 := Scan(Unbounded(env), u);
      if Deliverable(u1.node) {
        StepYoung(env, u, scan);
        DeliverYoung(env, Execute(Unbounded(env), u1), now);
      } else {
        LastScanYoung(env, u, scan, env.clock(u.readings - 1));
      }
    }
  }

  lemma StepYoung(env: Env, u: Run, scan: nat)
    requires Monotone(env.clock) && Window(u.node) && u.readings > 0
    requires ResultsAged(u.node, scan, env.clock(u.readings - 1)) && Deliverable(Scan(Unbounded(env), u).node)
    ensures var u2 := Execute(Unbounded(env), Scan(Unbounded(env), u));
            && Window(u2.node) && env.clock(u.readings) <= env.clock(u2.readings - 1)
            && ResultsAged(u2.node, env.clock(u.readings), env.clock(u2.readings - 1))
  {
    assert env.clock(u.readings - 1) <= env.clock(u.readings) <= env.clock(u.readings + 1);
    ScanAgesResults(env, u, scan, env.clock(u.readings - 1));
    ExpireKeeps(Unbounded(env), u.node, env.clock(u.readings));
    ExecuteWindow(Unbounded(env), Scan(Unbounded(env), u));
    ExecuteAgesResults(env, Scan(Unbounded(env), u), env.clock(u.readings));
  }

  // ------------------------------------------------------------------- one call

  ghost predicate Ready(env: Env, u: Run, told: set<Command>, scan: nat) {
    && Sound(u, told) && Rest(u.node)
    && (u.readings > 0 ==> Aged(u.node, scan, env.clock(u.readings - 1)) && scan <= env.clock(u.readings - 1))
    && (u.readings == 0 ==> u.node.live == map[] && scan <= env.clock(0))
  }

  /** The run right after storing the command of a frame, before any delivery. */
  function Stored(env: Env, r: Run, f: Frame): Run
    requires |f.payload| >= 10
  {
    var r0, p := Scan(env, r), f.payload;
    Emit(Store(r0, env.Read(r.readings), p[8], p[9], p[10..]), ReceivedFrame(r0.node.session, p[8]))
  }

  /** True time of the last expiry scan of a call. */
  ghost function CallScan(env: Env, u: Run, c: Call): nat {
    if c.Got? && Stores(Scan(Unbounded(env), u).node, c.frame)
    then DeliverScan(env, Stored(Unbounded(env), u, c.frame), env.clock(u.readings))
    else env.clock(u.readings)
  }

  /** The frame is a command the node is about to put into a free slot. */
  predicate Stores(n: Node, f: Frame) {
    && f.kind == SR_COMMAND && 10 <= |f.payload| <= PAYLOAD_MAX && n.active && SessionOf(f.payload) == n.session
    && f.payload[8] !in n.live && n.base <= f.payload[8] < n.base + WINDOW && |n.live| < POOL
  }

  function Apply(env: Env, r: Run, c: Call): Run {
    match c
    case Got(f) => OnFrame(env, r, f)
    case Ticked(order) => if Lists(order, TickDue(env, r)) then OnTick(env, r, order) else r
  }

  lemma StartSame(env: Env, w: Run, u: Run, told: set<Command>, scan: nat)
    requires Monotone(env.clock) && Same(w, u) && Ready(env, u, told, scan)
    requires env.clock(u.readings) - scan <= WRAP - RESULT_TTL
    ensures var now := env.clock(u.readings);
            && Same(Scan(Wrapping(env), w), Scan(Unbounded(env), u))
            && Sound(Scan(Unbounded(env), u), told) && Rest(Scan(Unbounded(env), u).node)
            && scan <= now && Aged(Scan(Unbounded(env), u).node, scan, now)
            && Aged(Scan(Unbounded(env), u).node, now, now)
  {
    var now := env.clock(u.readings);
    if u.readings > 0 {
      assert env.clock(u.readings - 1) <= now;
      AgedLater(u.node, scan, env.clock(u.readings - 1), scan, now);
    }
    ScanSame(env, w, u, scan);
    ScanKeeps(Unbounded(env), u, told);
    ExpireYoung(env, now, u.node, scan);
  }

  lemma SizesSame(w: Node, u: Node)
    requires SameNode(w, u)
    ensures |w.live| == |u.live| && (forall q :: q in w.live <==> q in u.live)
  {
    assert |w.live| == |w.live.Keys| && |u.live| == |u.live.Keys|;
    assert forall q :: q in w.live <==> q in w.live.Keys;
  }

  lemma StoreSame(env: Env, w: Run, u: Run, now: nat, q: Byte, kind: Byte, args: Bytes)
    requires Same(w, u)
    ensures Same(Emit(Store(w, now % WRAP, q, kind, args), ReceivedFrame(w.node.session, q)),
                 Emit(Store(u, now, q, kind, args), ReceivedFrame(u.node.session, q)))
  {
    var w1, u1 := Store(w, now % WRAP, q, kind, args).node, Store(u, now, q, kind, args).node;
    assert w1.live.Keys == w.node.live.Keys + {q} && u1.live.Keys == u.node.live.Keys + {q};
  }

  lemma OpenSame(w: Run, u: Run, session: U64, now: int)
    requires Same(w, u) && Aged(u.node, now, now)
    ensures Same(OnOpen(w, session), OnOpen(u, session)) && Aged(OnOpen(u, session).node, now, now)
  {}

  lemma AckSame(w: Run, u: Run, p: Bytes, now: int)
    requires |p| >= 9 && Same(w, u) && Aged(u.node, now, now)
    ensures Same(OnResultAck(w, p), OnResultAck(u, p)) && Aged(OnResultAck(u, p).node, now, now)
  {
    SizesSame(w.node, u.node);
    assert (w.node.live - {p[8]}).Keys == w.node.live.Keys - {p[8]};
    assert (u.node.live - {p[8]}).Keys == u.node.live.Keys - {p[8]};
  }

  /** A command that is already there, too old, too new, or finds the pool full. */
  lemma QuietCommandSame(env: Env, w: Run, u: Run, at: nat, now: nat, q: Byte, kind: Byte, args: Bytes)
    requires Same(w, u)
    requires q in u.node.live || q < u.node.base || q >= u.node.base + WINDOW || |u.node.live| >= POOL
    ensures Same(OnCommand(Wrapping(env), w, at, q, kind, args), OnCommand(Unbounded(env), u, now, q, kind, args))
    ensures OnCommand(Unbounded(env), u, now, q, kind, args).node == u.node
    ensures OnCommand(Unbounded(env), u, now, q, kind, args).readings == u.readings
  {
    SizesSame(w.node, u.node);
  }

  /** Frames that store nothing: no more clock readings, equal effect, same ages. */
  lemma QuietFrameSame(env: Env, w: Run, u: Run, f: Frame, now: nat)
    requires Same(Scan(Wrapping(env), w), Scan(Unbounded(env), u))
    requires !Stores(Scan(Unbounded(env), u).node, f) && Aged(Scan(Unbounded(env), u).node, now, now)
    ensures Same(OnFrame(Wrapping(env), w, f), OnFrame(Unbounded(env), u, f))
    ensures OnFrame(Unbounded(env), u, f).readings == u.readings + 1
    ensures Aged(OnFrame(Unbounded(env), u, f).node, now, now)
  {
    var w0, u0, p := Scan(Wrapping(env), w), Scan(Unbounded(env), u), f.payload;
    if 8 <= |p| <= PAYLOAD_MAX {
      if f.kind == SR_OPEN {
        if |p| == 8 { OpenSame(w0, u0, SessionOf(p), now); }
      } else if u0.node.active && SessionOf(p) == u0.node.session && |p| >= 9 {
        if f.kind == SR_RESULT_ACK {
          AckSame(w0, u0, p, now);
        } else if f.kind == SR_COMMAND && |p| >= 10 {
          QuietCommandSame(env, w0, u0, Wrapping(env).Read(w.readings), Unbounded(env).Read(u.readings), p[8], p[9], p[10..]);
        }
      }
    }
  }

  lemma StoringFrame(env: Env, r: Run, f: Frame)
    requires Stores(Scan(env, r).node, f)
    ensures OnFrame(env, r, f) == Deliver(env, Stored(env, r, f))
  {}

  lemma StoredSame(env: Env, w: Run, u: Run, f: Frame, told: set<Command>, scan: nat)
    requires Monotone(env.clock) && Same(w, u) && Ready(env, u, told, scan) && Carried(f) <= told
    requires env.clock(u.readings) - scan <= WRAP - RESULT_TTL
    requires Stores(Scan(Unbounded(env), u).node, f)
    ensures Stores(Scan(Wrapping(env), w).node, f)
    ensures Same(Stored(Wrapping(env), w, f), Stored(Unbounded(env), u, f))
    ensures Sound(Stored(Unbounded(env), u, f), told) && scan <= env.clock(u.readings)
    ensures Aged(Stored(Unbounded(env), u, f).node, scan, env.clock(u.readings))
    ensures ResultsAged(Stored(Unbounded(env), u, f).node, env.clock(u.readings), env.clock(u.readings))
  {
    StartSame(env, w, u, told, scan);
    var now, p := env.clock(u.readings), f.payload;
    var w0, u0 := Scan(Wrapping(env), w), Scan(Unbounded(env), u);
    SizesSame(w0.node, u0.node);
    StoreSame(env, w0, u0, now, p[8], p[9], p[10..]);
    StoreKeeps(u0, now, p[8], p[9], p[10..], told);
  }

  lemma StoringFrameSame(env: Env, w: Run, u: Run, f: Frame, told: set<Command>, scan: nat)
    requires Monotone(env.clock) && Same(w, u) && Ready(env, u, told, scan) && Carried(f) <= told
    requires Near(env, u.readings, OnFrame(Unbounded(env), u, f).readings, scan)
    requires env.clock(u.readings) - scan <= WRAP - RESULT_TTL
    requires Stores(Scan(Unbounded(env), u).node, f)
    ensures Same(OnFrame(Wrapping(env), w, f), OnFrame(Unbounded(env), u, f))
  {
    StoredSame(env, w, u, f, told, scan);
    StoringFrame(Unbounded(env), u, f);
    StoringFrame(Wrapping(env), w, f);
    DeliverSame(env, Stored(Wrapping(env), w, f), Stored(Unbounded(env), u, f), scan);
  }

  lemma StoringFrameYoung(env: Env, w: Run, u: Run, f: Frame, told: set<Command>, scan: nat)
    requires Monotone(env.clock) && Same(w, u) && Ready(env, u, told, scan) && Carried(f) <= told
    requires env.clock(u.readings) - scan <= WRAP - RESULT_TTL
    requires Stores(Scan(Unbounded(env), u).node, f)
    ensures var u1 := OnFrame(Unbounded(env), u, f);
            && u1.readings > 0 && CallScan(env, u, Got(f)) <= env.clock(u1.readings - 1)
            && Aged(u1.node, CallScan(env, u, Got(f)), env.clock(u1.readings - 1))
  {
    StoredSame(env, w, u, f, told, scan);
    StoringFrame(Unbounded(env), u, f);
    DeliverYoung(env, Stored(Unbounded(env), u, f), env.clock(u.readings));
  }

  lemma FrameSame(env: Env, w: Run, u: Run, f: Frame, told: set<Command>, scan: nat)
    requires Monotone(env.clock) && Same(w, u) && Ready(env, u, told, scan) && Carried(f) <= told
    requires Near(env, u.readings, OnFrame(Unbounded(env), u, f).readings, scan)
    requires env.clock(u.readings) - scan <= WRAP - RESULT_TTL
    ensures Same(OnFrame(Wrapping(env), w, f), OnFrame(Unbounded(env), u, f))
    ensures Ready(env, OnFrame(Unbounded(env), u, f), told, CallScan(env, u, Got(f)))
  {
    OnFrameKeeps(Unbounded(env), u, f, told);
    if Stores(Scan(Unbounded(env), u).node, f) {
      StoringFrameSame(env, w, u, f, told, scan);
      StoringFrameYoung(env, w, u, f, told, scan);
    } else {
      StartSame(env, w, u, told, scan);
      QuietFrameSame(env, w, u, f, env.clock(u.readings));
    }
  }

  lemma DueSame(env: Env, w: Node, u: Node, now: nat, scan: int)
    requires SameNode(w, u) && Aged(u, scan, now) && now - scan <= WRAP - RESULT_TTL
    ensures DueSet(Wrapping(env), w, now % WRAP) == DueSet(Unbounded(env), u, now)
    ensures SameNode(Resend(Wrapping(env), w, now % WRAP), Resend(Unbounded(env), u, now))
  {
    SizesSame(w, u);
    forall q | q in u.live
      ensures Due(Wrapping(env), now % WRAP, w.live[q]) == Due(Unbounded(env), now, u.live[q])
    {
      DecisionsAgree(env, now, w.live[q], u.live[q], scan);
    }
    assert forall q :: q in DueSet(Wrapping(env), w, now % WRAP) <==> q in DueSet(Unbounded(env), u, now);
    assert Resend(Wrapping(env), w, now % WRAP).live.Keys == w.live.Keys;
    assert Resend(Unbounded(env), u, now).live.Keys == u.live.Keys;
  }

  lemma ResultsSame(w: Node, u: Node, order: seq<Byte>)
    requires SameNode(w, u) && forall q :: q in order ==> q in u.live && u.live[q].Executed?
    ensures forall q :: q in order ==> q in w.live && w.live[q].Executed?
    ensures Results(w, order) == Results(u, order)
  {
    SizesSame(w, u);
    assert forall i :: 0 <= i < |order| ==> order[i] in order;
  }

  lemma SweepAged(env: Env, u: Node, now: nat)
    requires Aged(u, now, now)
    ensures Aged(Resend(Unbounded(env), u, now), now, now)
  {}

  lemma TickDueSame(env: Env, w: Run, u: Run, told: set<Command>, scan: nat)
    requires Monotone(env.clock) && Same(w, u) && Ready(env, u, told, scan)
    requires env.clock(u.readings) - scan <= WRAP - RESULT_TTL
    ensures TickDue(Wrapping(env), w) == TickDue(Unbounded(env), u)
    ensures var now := env.clock(u.readings);
            SameNode(Resend(Wrapping(env), Scan(Wrapping(env), w).node, now % WRAP),
                     Resend(Unbounded(env), Scan(Unbounded(env), u).node, now))
  {
    StartSame(env, w, u, told, scan);
    DueSame(env, Scan(Wrapping(env), w).node, Scan(Unbounded(env), u).node, env.clock(u.readings), scan);
  }

  lemma TickSame(env: Env, w: Run, u: Run, order: seq<Byte>, told: set<Command>, scan: nat)
    requires Monotone(env.clock) && Same(w, u) && Ready(env, u, told, scan)
    requires env.clock(u.readings) - scan <= WRAP - RESULT_TTL
    requires Lists(order, TickDue(Unbounded(env), u))
    ensures Lists(order, TickDue(Wrapping(env), w))
    ensures Same(OnTick(Wrapping(env), w, order), OnTick(Unbounded(env), u, order))
  {
    TickDueSame(env, w, u, told, scan);
    StartSame(env, w, u, told, scan);
    assert forall q :: q in order ==> q in TickDue(Unbounded(env), u);
    ResultsSame(Scan(Wrapping(env), w).node, Scan(Unbounded(env), u).node, order);
  }

  lemma TickReady(env: Env, w: Run, u: Run, order: seq<Byte>, told: set<Command>, scan: nat)
    requires Monotone(env.clock) && Same(w, u) && Ready(env, u, told, scan)
    requires env.clock(u.readings) - scan <= WRAP - RESULT_TTL
    requires Lists(order, TickDue(Unbounded(env), u))
    ensures Ready(env, OnTick(Unbounded(env), u, order), told, env.clock(u.readings))
  {
    StartSame(env, w, u, told, scan);
    OnTickKeeps(Unbounded(env), u, order, told);
    SweepAged(env, Scan(Unbounded(env), u).node, env.clock(u.readings));
  }

  // -------------------------------------------------------------------- all runs

  /** Every call's clock readings lie within 2^32 - 5000 ms of the previous call's last
      expiry scan (of the start of the run, for the first call). */
  ghost predicate Spaced(env: Env, u: Run, calls: seq<Call>, scan: nat)
    decreases |calls|
  {
    calls == [] ||
    (var u1 := Apply(Unbounded(env), u, calls[0]);
     && env.clock(u.readings) - scan <= WRAP - RESULT_TTL
     && Near(env, u.readings, u1.readings, scan)
     && Spaced(env, u1, calls[1..], if u1 == u then scan else CallScan(env, u, calls[0])))
  }

  function ApplyAll(env: Env, r: Run, calls: seq<Call>): Run
    decreases |calls|
  {
    if calls == [] then r else ApplyAll(env, Apply(env, r, calls[0]), calls[1..])
  }

  ghost predicate AllTold(calls: seq<Call>, told: set<Command>) {
    forall i :: 0 <= i < |calls| && calls[i].Got? ==> Carried(calls[i].frame) <= told
  }

  /** A node on the wrapping clock and a node on the unbounded clock, given the same
      calls, send the same frames and execute the same commands with the same results. */
  lemma {:induction false} WrappingClockIsInvisible(env: Env, w: Run, u: Run, calls: seq<Call>, told: set<Command>, scan: nat)
    requires Monotone(env.clock) && Same(w, u) && Ready(env, u, told, scan)
    requires AllTold(calls, told) && Spaced(env, u, calls, scan)
    ensures Same(ApplyAll(Wrapping(env), w, calls), ApplyAll(Unbounded(env), u, calls))
    decreases |calls|
  {
    if calls != [] {
      var c := calls[0];
      var w1, u1 := Apply(Wrapping(env), w, c), Apply(Unbounded(env), u, c);
      match c {
        case Got(f) =>
          FrameSame(env, w, u, f, told, scan);
          FrameReads(Unbounded(env), u, f);
        case Ticked(order) =>
          TickDueSame(env, w, u, told, scan);
          if Lists(order, TickDue(Unbounded(env), u)) {
            TickSame(env, w, u, order, told, scan);
            TickReady(env, w, u, order, told, scan);
          }
      }
      WrappingClockIsInvisible(env, w1, u1, calls[1..], told, if u1 == u then scan else CallScan(env, u, c));
    }
  }

  lemma FrameReads(env: Env, u: Run, f: Frame)
    ensures OnFrame(env, u, f).readings > u.readings
  {
    if Stores(Scan(env, u).node, f) {
      StoringFrame(env, u, f);
      DeliverReads(env, Stored(env, u, f));
    }
  }

  // ------------------------------------------------ exactly when a scan is right

  predicate Waited(now: int, e: Entry) { e.Buffered? && now - e.receivedAt >= COMMAND_LIFETIME }
  predicate SeenToWait(now: int, e: Entry) { e.Buffered? && (now - e.receivedAt) % WRAP >= COMMAND_LIFETIME }
  predicate Spent(now: int, e: Entry) { e.Executed? && now - e.completedAt >= RESULT_TTL }
  predicate SeenSpent(now: int, e: Entry) { e.Executed? && (now - e.completedAt) % WRAP >= RESULT_TTL }

  ghost predicate Expired(n: Node, now: int) { Gap(n) && exists q :: q in n.live && Waited(now, n.live[q]) }

  /** No age has wrapped out of sight: a session to be closed has a follower whose age
      still shows, and otherwise every result to be dropped has one. */
  ghost predicate Visible(n: Node, now: int) {
    if Expired(n, now) then exists q :: q in n.live && SeenToWait(now, n.live[q])
    else forall q :: q in n.live && Spent(now, n.live[q]) ==> SeenSpent(now, n.live[q])
  }

  ghost predicate Past(e: Entry, now: int) {
    match e
    case Buffered(_, _, at) => at <= now
    case Executed(_, _, _, done, sent, _) => done <= now
  }

  lemma ElapsedWraps(env: Env, now: nat, stamp: nat)
    requires stamp <= now
    ensures Wrapping(env).Elapsed(now % WRAP, stamp % WRAP) == (now - stamp) % WRAP
  {
    var a, b := now / WRAP, stamp / WRAP;
    assert now - stamp == (a - b) * WRAP + (now % WRAP - stamp % WRAP);
    ModAbsorbs(a - b, now % WRAP - stamp % WRAP);
  }

  lemma ModAbsorbs(k: int, r: int)
    ensures (k * WRAP + r) % WRAP == r % WRAP
  {
    var x := k * WRAP + r;
    assert x == (k + r / WRAP) * WRAP + r % WRAP;
  }

  lemma SeenByBoth(env: Env, now: nat, w: Entry, u: Entry)
    requires SameEntry(w, u) && Past(u, now)
    ensures Overdue(Wrapping(env), now % WRAP, w) == SeenToWait(now, u)
    ensures Stale(Wrapping(env), now % WRAP, w) == SeenSpent(now, u)
    ensures SeenToWait(now, u) ==> Waited(now, u)
    ensures SeenSpent(now, u) ==> Spent(now, u)
  {
    match u
    case Buffered(_, _, at) => ElapsedWraps(env, now, at);
    case Executed(_, _, _, done, _, _) => ElapsedWraps(env, now, done);
  }

  /** A scan on the wrapping clock does what a scan on the unbounded clock does if and
      only if no age that matters has wrapped out of sight. */
  lemma ScanExact(env: Env, now: nat, w: Node, u: Node)
    requires SameNode(w, u) && u.active && forall q :: q in u.live ==> Past(u.live[q], now)
    ensures SameNode(Expire(Wrapping(env), w, now % WRAP), Expire(Unbounded(env), u, now)) <==> Visible(u, now)
  {
    forall q | q in u.live
      ensures Overdue(Wrapping(env), now % WRAP, w.live[q]) == SeenToWait(now, u.live[q])
      ensures Stale(Wrapping(env), now % WRAP, w.live[q]) == SeenSpent(now, u.live[q])
      ensures SeenToWait(now, u.live[q]) ==> Waited(now, u.live[q])
      ensures SeenSpent(now, u.live[q]) ==> Spent(now, u.live[q])
    {
      SeenByBoth(env, now, w.live[q], u.live[q]);
    }
    var w1, u1 := Expire(Wrapping(env), w, now % WRAP), Expire(Unbounded(env), u, now);
    assert forall q :: q in w.live <==> q in u.live by { assert w.live.Keys == u.live.Keys; }
    if Expired(u, now) {
      assert u1 == u.(active := false, live := map[]);
    } else {
      assert forall q :: q in u1.live <==> q in u.live && !Spent(now, u.live[q]);
      assert forall q :: q in w1.live <==> q in u.live && !SeenSpent(now, u.live[q]);
    }
  }

  predicate Unconfirmed(now: int, e: Entry) {
    e.Executed? && e.retries < MAX_RETRY && now - e.sentAt >= ACK_TIMEOUT
  }

  predicate SeenUnconfirmed(now: int, e: Entry) {
    e.Executed? && e.retries < MAX_RETRY && (now - e.sentAt) % WRAP >= ACK_TIMEOUT
  }

  ghost predicate AllSent(n: Node, now: int) {
    forall q :: q in n.live && n.live[q].Executed? ==> n.live[q].sentAt <= now
  }

  /** A tick on the wrapping clock resends the same results, and leaves the node the same,
      if and only if no result due for a resend has an age that wrapped out of sight. */
  lemma ResendExact(env: Env, now: nat, w: Node, u: Node)
    requires SameNode(w, u) && u.active && AllSent(u, now)
    ensures DueSet(Wrapping(env), w, now % WRAP) == DueSet(Unbounded(env), u, now)
       <==> forall q :: q in u.live && Unconfirmed(now, u.live[q]) ==> SeenUnconfirmed(now, u.live[q])
  {
    SizesSame(w, u);
    forall q | q in u.live
      ensures Due(Wrapping(env), now % WRAP, w.live[q]) == SeenUnconfirmed(now, u.live[q])
      ensures Due(Unbounded(env), now, u.live[q]) == Unconfirmed(now, u.live[q])
      ensures SeenUnconfirmed(now, u.live[q]) ==> Unconfirmed(now, u.live[q])
    {
      if u.live[q].Executed? { ElapsedWraps(env, now, u.live[q].sentAt); }
    }
    var x, y := DueSet(Wrapping(env), w, now % WRAP), DueSet(Unbounded(env), u, now);
    assert forall q :: q in x <==> q in u.live && SeenUnconfirmed(now, u.live[q]);
    assert forall q :: q in y <==> q in u.live && Unconfirmed(now, u.live[q]);
  }
}
