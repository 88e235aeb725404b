/** The node side of the selective-repeat command protocol, as a state machine on
    values. The sixteen storage slots are abstracted to a map from sequence
    number to its entry; class `NodeReceiver` refines it with the slot array. */
module Receiver {
  import opened Protocol

  /** What the execute hook hands back: a length byte's worth of bytes. */
  type Reply = r: Bytes | |r| <= 255

  /** The hooks as oracles: the k-th clock reading and the k-th execution's reply
      are arbitrary. `clock` is true elapsed milliseconds; the node only sees it
      modulo `modulus` (0 stands for a clock that never wraps). */
  datatype Env = Env(clock: nat -> nat, reply: nat -> Reply, modulus: nat) {
    function Read(i: nat): nat {
      if modulus == 0 then clock(i) else clock(i) % modulus
    }
    function Elapsed(now: nat, stamp: nat): int {
      if modulus == 0 then now - stamp else (now - stamp) % modulus
    }
  }

  datatype Entry =
    | Buffered(command: Byte, args: Bytes, receivedAt: nat)
    | Executed(command: Byte, args: Bytes, result: Bytes, completedAt: nat, sentAt: nat, retries: nat)

  datatype Node = Node(session: U64, base: nat, active: bool, live: map<Byte, Entry>)

  datatype Execution = Execution(cmd: Command, result: Bytes)

  /** A node together with everything it has done through its hooks so far. */
  datatype Run = Run(node: Node, readings: nat, runs: nat, out: seq<Frame>, ran: seq<Execution>)

  // ------------------------------------------------------------------- expiry

  predicate Overdue(env: Env, now: nat, e: Entry) {
    e.Buffered? && env.Elapsed(now, e.receivedAt) >= COMMAND_LIFETIME
  }

  predicate Stale(env: Env, now: nat, e: Entry) {
    e.Executed? && env.Elapsed(now, e.completedAt) >= RESULT_TTL
  }

  predicate Gap(n: Node) { n.base < 256 && n.base !in n.live }

  /** An overdue follower of a gap closes the session; otherwise only results past
      their lifetime go. */
  function Expire(env: Env, n: Node, now: nat): Node {
    if Gap(n) && exists q :: q in n.live && Overdue(env, now, n.live[q]) then
      n.(active := false, live := map[])
    else
      n.(live := map q | q in n.live && !Stale(env, now, n.live[q]) :: n.live[q])
  }

  function Scan(env: Env, r: Run): Run {
    r.(node := Expire(env, r.node, env.Read(r.readings)), readings := r.readings + 1)
  }

  // ----------------------------------------------------------------- delivery

  function Normalised(reply: Reply): Bytes {
    if |reply| == 0 || |reply| > RESULT_MAX then [RC_UNSUPPORTED] else reply
  }

  predicate Deliverable(n: Node) {
    n.active && n.base < 256 && n.base in n.live && n.live[n.base].Buffered?
  }

  /** Executes the command at the left edge, files its result, moves the edge, and
      only then tries to send. */
  function Execute(env: Env, r: Run): Run
    requires Deliverable(r.node)
  {
    var n, e := r.node, r.node.live[r.node.base];
    var result := Normalised(env.reply(r.runs));
    var now := env.Read(r.readings);
    var done := Executed(e.command, e.args, result, now, now, 0);
    Run(n.(base := n.base + 1, live := n.live[n.base := done]),
        r.readings + 1, r.runs + 1,
        r.out + [ResultFrame(n.session, n.base, e.command, result)],
        r.ran + [Execution(Command(n.session, n.base, e.command, e.args), result)])
  }

  function Deliver(env: Env, r: Run): Run
    decreases 256 - r.node.base
  {
    if r.node.base >= 256 then r else
    var r1 := Scan(env, r);
    if !Deliverable(r1.node) then r1 else Deliver(env, Execute(env, r1))
  }

  // ------------------------------------------------------------------- frames

  function Emit(r: Run, f: Frame): Run { r.(out := r.out + [f]) }

  function ResultOf(n: Node, q: Byte): Frame
    requires q in n.live && n.live[q].Executed?
  {
    ResultFrame(n.session, q, n.live[q].command, n.live[q].result)
  }

  function OnOpen(r: Run, s: U64): Run {
    var n := if s > r.node.session then Node(s, 0, true, map[]) else r.node;
    var rc := if s == n.session && n.active then RC_OK else RC_BAD_PARAM;
    Emit(r.(node := n), OpenAckFrame(s, n.session, rc))
  }

  function OnResultAck(r: Run, p: Bytes): Run
    requires |p| >= 9
  {
    if |p| == 9 && p[8] in r.node.live && r.node.live[p[8]].Executed?
    then r.(node := r.node.(live := r.node.live - {p[8]}))
    else r
  }

  function Store(r: Run, now: nat, q: Byte, kind: Byte, args: Bytes): Run {
    r.(node := r.node.(live := r.node.live[q := Buffered(kind, args, now)]))
  }

  function OnCommand(env: Env, r: Run, now: nat, q: Byte, kind: Byte, args: Bytes): Run {
    var n := r.node;
    if q in n.live then
      if n.live[q].command != kind || n.live[q].args != args then r
      else
        var r1 := Emit(r, ReceivedFrame(n.session, q));
        if n.live[q].Executed? then Emit(r1, ResultOf(n, q)) else r1
    else if q < n.base then Emit(r, ReceivedFrame(n.session, q))
    else if q >= n.base + WINDOW || |n.live| >= POOL then r
    else
      Deliver(env, Emit(Store(r, now, q, kind, args), ReceivedFrame(n.session, q)))
  }

  /** One received frame. A missing payload behaves like an empty one. */
  function OnFrame(env: Env, r0: Run, f: Frame): Run {
    var r, p := Scan(env, r0), f.payload;
    if |p| > PAYLOAD_MAX || |p| < 8 then r
    else if f.kind == SR_OPEN then (if |p| != 8 then r else OnOpen(r, SessionOf(p)))
    else if !r.node.active || SessionOf(p) != r.node.session || |p| < 9 then r
    else if f.kind == SR_RESULT_ACK then OnResultAck(r, p)
    else if f.kind != SR_COMMAND || |p| < 10 then r
    else OnCommand(env, r, env.Read(r0.readings), p[8], p[9], p[10..])
  }

  // --------------------------------------------------------------------- tick

  predicate Due(env: Env, now: nat, e: Entry) {
    e.Executed? && e.retries < MAX_RETRY && env.Elapsed(now, e.sentAt) >= ACK_TIMEOUT
  }

  function DueSet(env: Env, n: Node, now: nat): set<Byte> {
    if n.active then set q | q in n.live && Due(env, now, n.live[q]) else {}
  }

  function Results(n: Node, order: seq<Byte>): (fs: seq<Frame>)
    requires forall q :: q in order ==> q in n.live && n.live[q].Executed?
    ensures |fs| == |order|
    ensures forall i :: 0 <= i < |order| ==> fs[i] == ResultOf(n, order[i])
  {
    seq(|order|, i requires 0 <= i < |order| => ResultOf(n, order[i]))
  }

  predicate Distinct<T(==)>(s: seq<T>) {
    forall i, j :: 0 <= i < j < |s| ==> s[i] != s[j]
  }

  /** `order` lists `due` once each; the slot layout decides which listing. */
  predicate Lists(order: seq<Byte>, due: set<Byte>) {
    Distinct(order) && due == set q | q in order
  }

  function Resend(env: Env, n: Node, now: nat): Node {
    n.(live := map q | q in n.live ::
        if q in DueSet(env, n, now)
        then n.live[q].(retries := n.live[q].retries + 1, sentAt := now)
        else n.live[q])
  }

  function OnTick(env: Env, r0: Run, order: seq<Byte>): Run
    requires Lists(order, TickDue(env, r0))
  {
    var r, now := Scan(env, r0), env.Read(r0.readings);
    r.(node := Resend(env, r.node, now), out := r.out + Results(r.node, order))
  }

  /** The results a tick is going to send again. */
  function TickDue(env: Env, r0: Run): (due: set<Byte>)
    ensures forall q :: q in due ==> q in Scan(env, r0).node.live && Scan(env, r0).node.live[q].Executed?
  {
    DueSet(env, Scan(env, r0).node, env.Read(r0.readings))
  }

  // =================================================================== safety

  /** What holds of the window at every point, also in the middle of a delivery. */
  ghost predicate Window(n: Node) {
    && n.base <= 256
    && |n.live| <= POOL
    && (!n.active ==> n.live == map[])
    && (forall q :: q in n.live ==>
          match n.live[q]
          case Buffered(_, args, _) => n.base <= q < n.base + WINDOW && |args| <= ARGS_MAX
          case Executed(_, args, result, _, _, retries) =>
            q < n.base && |args| <= ARGS_MAX && 1 <= |result| <= RESULT_MAX && retries <= MAX_RETRY)
  }

  /** Between calls nothing executable is left behind. */
  ghost predicate Rest(n: Node) { Window(n) && (n.base < 256 ==> n.base !in n.live) }

  /** Consecutive executions: next number of the same session, or number 0 of a later one. */
  ghost predicate Follows(a: Execution, b: Execution) {
    || (b.cmd.session == a.cmd.session && b.cmd.num == a.cmd.num + 1)
    || (b.cmd.session > a.cmd.session && b.cmd.num == 0)
  }

  ghost predicate Chain(ran: seq<Execution>) {
    && (ran != [] ==> ran[0].cmd.num == 0)
    && (forall i :: 0 < i < |ran| ==> Follows(ran[i - 1], ran[i]))
  }

  /** Where the log of executions stands relative to the node's window. */
  ghost predicate AtEdge(n: Node, ran: seq<Execution>) {
    && (ran != [] ==> ran[|ran| - 1].cmd.session <= n.session)
    && (n.active ==>
          if ran != [] && ran[|ran| - 1].cmd.session == n.session
          then n.base == ran[|ran| - 1].cmd.num + 1
          else n.base == 0)
  }

  /** The node has taken responsibility for (s, q), or will never again act in s. */
  ghost predicate Held(n: Node, s: U64, q: Byte) {
    || s < n.session
    || (s == n.session && (n.active ==> q < n.base || q in n.live))
  }

  ghost predicate Sent(f: Frame, n: Node, ran: seq<Execution>) {
    || (exists s, q :: f == ReceivedFrame(s, q) && Held(n, s, q))
    || (exists e :: e in ran && f == ResultFrame(e.cmd.session, e.cmd.num, e.cmd.kind, e.result))
    || (exists s, h: U64, rc :: f == OpenAckFrame(s, h, rc) && h <= n.session && (rc == RC_OK ==> s == h))
  }

  /** Everything the node ever did, given the commands `told` it was ever sent. */
  ghost predicate Sound(r: Run, told: set<Command>) {
    && Window(r.node)
    && Chain(r.ran) && AtEdge(r.node, r.ran)
    && (forall q :: q in r.node.live ==>
          Command(r.node.session, q, r.node.live[q].command, r.node.live[q].args) in told)
    && (forall q :: q in r.node.live && r.node.live[q].Executed? ==>
          Execution(Command(r.node.session, q, r.node.live[q].command, r.node.live[q].args),
                    r.node.live[q].result) in r.ran)
    && (forall e :: e in r.ran ==> e.cmd in told)
    && (forall f :: f in r.out ==> Sent(f, r.node, r.ran))
  }

  // ------------------------------------------------- the log as a chain

  /** Along a chain (session, number) strictly increases. */
  lemma {:induction false} ChainOrder(ran: seq<Execution>, i: nat, j: nat)
    requires Chain(ran) && i < j < |ran|
    ensures ran[i].cmd.session < ran[j].cmd.session
         || (ran[i].cmd.session == ran[j].cmd.session && ran[i].cmd.num < ran[j].cmd.num)
    decreases j
  {
    assert Follows(ran[j - 1], ran[j]);
    if i < j - 1 { ChainOrder(ran, i, j - 1); }
  }

  /** Whatever number a session reached, it went through all smaller ones. */
  lemma {:induction false} ChainPrefix(ran: seq<Execution>, j: nat, num: nat) returns (i: nat)
    requires Chain(ran) && j < |ran| && num <= ran[j].cmd.num
    ensures i <= j && ran[i].cmd.session == ran[j].cmd.session && ran[i].cmd.num == num
    decreases j
  {
    if num == ran[j].cmd.num { i := j; }
    else {
      assert Follows(ran[j - 1], ran[j]);
      i := ChainPrefix(ran, j - 1, num);
    }
  }

  /** In the node's own session the executed numbers are those left of the edge. */
  lemma ExecutedLeftOfEdge(n: Node, ran: seq<Execution>, e: Execution)
    requires Chain(ran) && AtEdge(n, ran) && e in ran
    ensures e.cmd.session <= n.session
    ensures n.active && e.cmd.session == n.session ==> e.cmd.num < n.base
  {
    var i :| 0 <= i < |ran| && ran[i] == e;
    if i < |ran| - 1 { ChainOrder(ran, i, |ran| - 1); }
  }

  // ------------------------------------------- how a node may move

  /** From one state to a later one: sessions only grow, the edge of a session only
      moves right, a closed session stays closed, and nothing held is dropped. */
  ghost predicate Later(a: Node, b: Node) {
    && a.session <= b.session
    && (a.session == b.session && b.active ==>
          && a.active && a.base <= b.base
          && forall q :: q in a.live ==> q in b.live || q < b.base)
  }

  lemma HeldLater(a: Node, b: Node, s: U64, q: Byte)
    requires Later(a, b) && Held(a, s, q)
    ensures Held(b, s, q)
  {}

  lemma SentLater(f: Frame, a: Node, ran: seq<Execution>, b: Node, more: seq<Execution>)
    requires Sent(f, a, ran) && Later(a, b)
    ensures Sent(f, b, ran + more)
  {
    if s, q :| f == ReceivedFrame(s, q) && Held(a, s, q) {
      HeldLater(a, b, s, q);
    } else if e :| e in ran && f == ResultFrame(e.cmd.session, e.cmd.num, e.cmd.kind, e.result) {
      assert e in ran + more;
    } else {
      var s, h: U64, rc :| f == OpenAckFrame(s, h, rc) && h <= a.session && (rc == RC_OK ==> s == h);
    }
  }

  lemma AllSentLater(out: seq<Frame>, a: Node, ran: seq<Execution>, b: Node, more: seq<Execution>)
    requires (forall f :: f in out ==> Sent(f, a, ran)) && Later(a, b)
    ensures forall f :: f in out ==> Sent(f, b, ran + more)
  {
    forall f | f in out ensures Sent(f, b, ran + more) { SentLater(f, a, ran, b, more); }
  }

  // ------------------------------------------------- one piece at a time

  lemma SubmapSize<K, V>(a: map<K, V>, b: map<K, V>)
    requires a.Keys <= b.Keys
    ensures |a| <= |b|
  {
    SubsetSize(a.Keys, b.Keys);
  }

  lemma SubsetSize<K>(a: set<K>, b: set<K>)
    requires a <= b
    ensures |a| <= |b|
  {
    if a != {} {
      var x :| x in a;
      SubsetSize(a - {x}, b - {x});
    }
  }

  lemma ExpireKeeps(env: Env, n: Node, now: nat)
    requires Window(n)
    ensures var m := Expire(env, n, now);
            Window(m) && Later(n, m) && m.session == n.session && m.base == n.base
            && (forall q :: q in m.live ==> q in n.live && m.live[q] == n.live[q])
            && (forall q :: q in n.live && q !in m.live ==> !m.active || n.live[q].Executed?)
  {
    var m := Expire(env, n, now);
    SubmapSize(m.live, n.live);
  }

  lemma ScanKeeps(env: Env, r: Run, told: set<Command>)
    requires Sound(r, told)
    ensures Sound(Scan(env, r), told) && Later(r.node, Scan(env, r).node)
    ensures Rest(r.node) ==> Rest(Scan(env, r).node)
  {
    var m := Scan(env, r).node;
    ExpireKeeps(env, r.node, env.Read(r.readings));
    AllSentLater(r.out, r.node, r.ran, m, []);
    assert r.ran + [] == r.ran;
  }

  lemma ExecuteWindow(env: Env, r: Run)
    requires Window(r.node) && Deliverable(r.node)
    ensures Window(Execute(env, r).node) && Later(r.node, Execute(env, r).node)
  {
    var r1 := Execute(env, r);
    assert r1.node.live.Keys == r.node.live.Keys;
    SubmapSize(r1.node.live, r.node.live);
  }

  lemma ExecuteMoves(env: Env, r: Run, told: set<Command>)
    requires Sound(r, told) && Deliverable(r.node)
    ensures var r1 := Execute(env, r);
            Window(r1.node) && Later(r.node, r1.node) && Chain(r1.ran) && AtEdge(r1.node, r1.ran)
  {
    ExecuteWindow(env, r);
  }

  lemma ExecuteKeeps(env: Env, r: Run, told: set<Command>)
    requires Sound(r, told) && Deliverable(r.node)
    ensures Sound(Execute(env, r), told) && Later(r.node, Execute(env, r).node)
  {
    ExecuteMoves(env, r, told);
    var r1 := Execute(env, r);
    var n, m := r.node, r1.node;
    var x := r1.ran[|r.ran|];
    assert r1.ran == r.ran + [x] && x in r1.ran;
    AllSentLater(r.out, n, r.ran, m, [x]);
    var f := ResultFrame(x.cmd.session, x.cmd.num, x.cmd.kind, x.result);
    assert Sent(f, m, r1.ran);
    assert r1.out == r.out + [f];
  }

  lemma LaterTransitive(a: Node, b: Node, c: Node)
    requires Later(a, b) && Later(b, c)
    ensures Later(a, c)
  {}

  lemma {:induction false} DeliverKeeps(env: Env, r: Run, told: set<Command>)
    requires Sound(r, told)
    ensures Sound(Deliver(env, r), told) && Rest(Deliver(env, r).node)
    ensures Later(r.node, Deliver(env, r).node)
    decreases 256 - r.node.base
  {
    if r.node.base < 256 {
      var r1 := Scan(env, r);
      ScanKeeps(env, r, told);
      if Deliverable(r1.node) {
        ExecuteKeeps(env, r1, told);
        var r2 := Execute(env, r1);
        DeliverKeeps(env, r2, told);
        LaterTransitive(r.node, r1.node, r2.node);
        LaterTransitive(r.node, r2.node, Deliver(env, r2).node);
      }
    }
  }

  lemma OnOpenKeeps(r: Run, s: U64, told: set<Command>)
    requires Sound(r, told) && Rest(r.node)
    ensures Sound(OnOpen(r, s), told) && Rest(OnOpen(r, s).node)
    ensures Later(r.node, OnOpen(r, s).node)
  {
    var n := OnOpen(r, s).node;
    assert Later(r.node, n);
    AllSentLater(r.out, r.node, r.ran, n, []);
    assert r.ran + [] == r.ran;
    var rc := if s == n.session && n.active then RC_OK else RC_BAD_PARAM;
    assert Sent(OpenAckFrame(s, n.session, rc), n, r.ran);
  }

  lemma OnResultAckKeeps(r: Run, p: Bytes, told: set<Command>)
    requires |p| >= 9 && Sound(r, told) && Rest(r.node)
    ensures Sound(OnResultAck(r, p), told) && Rest(OnResultAck(r, p).node)
    ensures Later(r.node, OnResultAck(r, p).node)
  {
    var n := OnResultAck(r, p).node;
    SubmapSize(n.live, r.node.live);
    AllSentLater(r.out, r.node, r.ran, n, []);
    assert r.ran + [] == r.ran;
  }

  lemma StoreMoves(r: Run, now: nat, q: Byte, kind: Byte, args: Bytes)
    requires Window(r.node) && AtEdge(r.node, r.ran) && r.node.active && q !in r.node.live && |args| <= ARGS_MAX
    requires r.node.base <= q < r.node.base + WINDOW && |r.node.live| < POOL
    ensures var m := Store(r, now, q, kind, args).node;
            Window(m) && Later(r.node, m) && AtEdge(m, r.ran) && Held(m, m.session, q)
  {
    assert Store(r, now, q, kind, args).node.live.Keys == r.node.live.Keys + {q};
  }

  lemma StoreKeeps(r: Run, now: nat, q: Byte, kind: Byte, args: Bytes, told: set<Command>)
    requires Sound(r, told) && r.node.active && q !in r.node.live && |args| <= ARGS_MAX
    requires r.node.base <= q < r.node.base + WINDOW && |r.node.live| < POOL
    requires Command(r.node.session, q, kind, args) in told
    ensures var stored := Store(r, now, q, kind, args);
            Sound(Emit(stored, ReceivedFrame(r.node.session, q)), told) && Later(r.node, stored.node)
  {
    StoreMoves(r, now, q, kind, args);
    var m := Store(r, now, q, kind, args).node;
    AllSentLater(r.out, r.node, r.ran, m, []);
    assert r.ran + [] == r.ran;
    assert Sent(ReceivedFrame(m.session, q), m, r.ran);
  }

  lemma OnCommandKeeps(env: Env, r: Run, now: nat, q: Byte, kind: Byte, args: Bytes, told: set<Command>)
    requires Sound(r, told) && Rest(r.node) && r.node.active && |args| <= ARGS_MAX
    requires Command(r.node.session, q, kind, args) in told
    ensures var r1 := OnCommand(env, r, now, q, kind, args);
            Sound(r1, told) && Rest(r1.node) && Later(r.node, r1.node)
  {
    var n := r.node;
    if q in n.live {
      if n.live[q].command == kind && n.live[q].args == args {
        assert Held(n, n.session, q);
        assert Sent(ReceivedFrame(n.session, q), n, r.ran);
        if n.live[q].Executed? {
          var e := Execution(Command(n.session, q, kind, args), n.live[q].result);
          assert e in r.ran;
          assert Sent(ResultOf(n, q), n, r.ran);
        }
      }
    } else if q < n.base {
      assert Held(n, n.session, q);
      assert Sent(ReceivedFrame(n.session, q), n, r.ran);
    } else if q < n.base + WINDOW && |n.live| < POOL {
      StoreKeeps(r, now, q, kind, args, told);
      var r1 := Emit(Store(r, now, q, kind, args), ReceivedFrame(n.session, q));
      DeliverKeeps(env, r1, told);
      LaterTransitive(n, r1.node, Deliver(env, r1).node);
    }
  }

  /** The command a frame carries, if it is one the node may store. */
  ghost function Carried(f: Frame): set<Command> {
    if f.kind == SR_COMMAND && 10 <= |f.payload| <= PAYLOAD_MAX
    then {Command(SessionOf(f.payload), f.payload[8], f.payload[9], f.payload[10..])}
    else {}
  }

  /** Any frame at all keeps the receiver sound and leaves it at rest. */
  lemma OnFrameKeeps(env: Env, r: Run, f: Frame, told: set<Command>)
    requires Sound(r, told) && Rest(r.node) && Carried(f) <= told
    ensures Sound(OnFrame(env, r, f), told) && Rest(OnFrame(env, r, f).node)
    ensures Later(r.node, OnFrame(env, r, f).node)
  {
    var r1, p := Scan(env, r), f.payload;
    ScanKeeps(env, r, told);
    if 8 <= |p| <= PAYLOAD_MAX {
      if f.kind == SR_OPEN {
        if |p| == 8 { OnOpenKeeps(r1, SessionOf(p), told); }
      } else if r1.node.active && SessionOf(p) == r1.node.session && |p| >= 9 {
        if f.kind == SR_RESULT_ACK {
          OnResultAckKeeps(r1, p, told);
        } else if f.kind == SR_COMMAND && |p| >= 10 {
          OnCommandKeeps(env, r1, env.Read(r.readings), p[8], p[9], p[10..], told);
        }
      }
    }
  }

  /** A resend changes only the retry count and the time of the last attempt. */
  lemma ResendKeeps(env: Env, n: Node, now: nat)
    requires Rest(n)
    ensures var m := Resend(env, n, now);
            Rest(m) && Later(n, m) && m.session == n.session && m.base == n.base && m.active == n.active
            && m.live.Keys == n.live.Keys
            && forall q :: q in n.live ==>
                 && m.live[q].Executed? == n.live[q].Executed?
                 && m.live[q].command == n.live[q].command && m.live[q].args == n.live[q].args
                 && (n.live[q].Executed? ==> m.live[q].result == n.live[q].result)
  {
    var m := Resend(env, n, now);
    assert m.live.Keys == n.live.Keys;
    SubmapSize(m.live, n.live);
  }

  lemma ResultsSent(r: Run, told: set<Command>, order: seq<Byte>, m: Node)
    requires Sound(r, told)
    requires forall q :: q in order ==> q in r.node.live && r.node.live[q].Executed?
    ensures forall f :: f in Results(r.node, order) ==> Sent(f, m, r.ran)
  {
    var n := r.node;
    forall f | f in Results(n, order) ensures Sent(f, m, r.ran) {
      var i :| 0 <= i < |order| && f == Results(n, order)[i];
      var q := order[i];
      var e := Execution(Command(n.session, q, n.live[q].command, n.live[q].args), n.live[q].result);
      assert e in r.ran;
      assert f == ResultFrame(e.cmd.session, e.cmd.num, e.cmd.kind, e.result);
    }
  }

  lemma OnTickKeeps(env: Env, r: Run, order: seq<Byte>, told: set<Command>)
    requires Sound(r, told) && Rest(r.node) && Lists(order, TickDue(env, r))
    ensures Sound(OnTick(env, r, order), told) && Rest(OnTick(env, r, order).node)
    ensures Later(r.node, OnTick(env, r, order).node)
  {
    var r1, now := Scan(env, r), env.Read(r.readings);
    ScanKeeps(env, r, told);
    var n, m := r1.node, Resend(env, r1.node, now);
    ResendKeeps(env, n, now);
    LaterTransitive(r.node, n, m);
    AllSentLater(r1.out, n, r1.ran, m, []);
    assert r1.ran + [] == r1.ran;
    assert forall q :: q in order ==> q in TickDue(env, r);
    ResultsSent(r1, told, order, m);
  }

  // ------------------------------------------ the window alone, for any inputs

  lemma {:induction false} DeliverRest(env: Env, r: Run)
    requires Window(r.node)
    ensures Rest(Deliver(env, r).node)
    decreases 256 - r.node.base
  {
    if r.node.base < 256 {
      var r1 := Scan(env, r);
      ExpireKeeps(env, r.node, env.Read(r.readings));
      if Deliverable(r1.node) {
        ExecuteWindow(env, r1);
        DeliverRest(env, Execute(env, r1));
      }
    }
  }

  lemma StoreWindow(r: Run, now: nat, q: Byte, kind: Byte, args: Bytes)
    requires Window(r.node) && r.node.active && q !in r.node.live && |args| <= ARGS_MAX
    requires r.node.base <= q < r.node.base + WINDOW && |r.node.live| < POOL
    ensures Window(Store(r, now, q, kind, args).node)
  {
    assert Store(r, now, q, kind, args).node.live.Keys == r.node.live.Keys + {q};
  }

  lemma OnCommandRest(env: Env, r: Run, now: nat, q: Byte, kind: Byte, args: Bytes)
    requires Rest(r.node) && r.node.active && |args| <= ARGS_MAX
    ensures Rest(OnCommand(env, r, now, q, kind, args).node)
  {
    if q !in r.node.live && r.node.base <= q < r.node.base + WINDOW && |r.node.live| < POOL {
      StoreWindow(r, now, q, kind, args);
      DeliverRest(env, Emit(Store(r, now, q, kind, args), ReceivedFrame(r.node.session, q)));
    }
  }

  lemma OnResultAckRest(r: Run, p: Bytes)
    requires Rest(r.node) && |p| >= 9
    ensures Rest(OnResultAck(r, p).node)
  {
    SubmapSize(OnResultAck(r, p).node.live, r.node.live);
  }

  /** Whatever arrives: slots stay within the pool, buffered numbers inside the window,
      executed ones to its left, and nothing executable is left waiting. */
  lemma OnFrameRest(env: Env, r: Run, f: Frame)
    requires Rest(r.node)
    ensures Rest(OnFrame(env, r, f).node)
  {
    var r1, p := Scan(env, r), f.payload;
    ExpireKeeps(env, r.node, env.Read(r.readings));
    if 9 <= |p| <= PAYLOAD_MAX && f.kind != SR_OPEN && r1.node.active {
      if f.kind == SR_RESULT_ACK { OnResultAckRest(r1, p); }
      if f.kind == SR_COMMAND && |p| >= 10 { OnCommandRest(env, r1, env.Read(r.readings), p[8], p[9], p[10..]); }
    }
  }

  lemma OnTickRest(env: Env, r: Run, order: seq<Byte>)
    requires Rest(r.node) && Lists(order, TickDue(env, r))
    ensures Rest(OnTick(env, r, order).node)
  {
    ExpireKeeps(env, r.node, env.Read(r.readings));
    ResendKeeps(env, Scan(env, r).node, env.Read(r.readings));
  }

  /** A full pool neither confirms nor displaces anything: the only effect of a new
      command is the expiry scan every call starts with. */
  lemma FullPoolRefuses(env: Env, r: Run, c: Command)
    requires |Scan(env, r).node.live| >= POOL && |c.args| <= ARGS_MAX
    requires c.session == Scan(env, r).node.session && c.num !in Scan(env, r).node.live
    requires c.num >= Scan(env, r).node.base
    ensures OnFrame(env, r, CommandFrame(c)) == Scan(env, r)
  {
    BodyFields(c.session, c.num, c.kind, c.args);
  }
}
