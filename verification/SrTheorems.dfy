/** What the protocol promises, for every run of gateway and node: any sequence of
    events, any clock readings, any execution results, any node start state without
    a live session. */
module SrTheorems {
  import opened Protocol
  import T = Tracker
  import S = Sends
  import G = Sender
  import R = Receiver
  import N = NodeTheorems
  import opened SrSystem

  ghost function After(env: R.Env, s: Sys, events: seq<Event>): (s1: Sys)
    requires Inv(s)
    ensures Inv(s1)
    decreases |events|
  {
    if events == [] then s else
    NextInv(env, s, events[0]);
    After(env, Next(env, s, events[0]), events[1..])
  }

  /** All states of all runs. */
  ghost predicate Reachable(env: R.Env, s: Sys) {
    exists s0, events :: Init(s0) && (InitInv(s0); s == After(env, s0, events))
  }

  lemma ReachableInv(env: R.Env, s: Sys)
    requires Reachable(env, s)
    ensures Inv(s)
  {
    var s0, events :| Init(s0) && (InitInv(s0); s == After(env, s0, events));
    InitInv(s0);
  }

  // ------------------------------------------- at most once, in order, unaltered

  /** `places` shows `part` as a subsequence of `whole`. */
  ghost predicate Embeds(part: seq<Command>, whole: seq<Command>, places: seq<nat>) {
    && |places| == |part|
    && (forall i :: 0 <= i < |places| ==> places[i] < |whole| && whole[places[i]] == part[i])
    && (forall i, j :: 0 <= i < j < |places| ==> places[i] < places[j])
  }

  function Commands(ran: seq<R.Execution>): (cs: seq<Command>)
    ensures |cs| == |ran| && forall i :: 0 <= i < |cs| ==> cs[i] == ran[i].cmd
  {
    seq(|ran|, i requires 0 <= i < |ran| => ran[i].cmd)
  }

  lemma PlaceOf(subs: seq<Command>, c: Command) returns (k: nat)
    requires c in subs
    ensures k < |subs| && subs[k] == c
  {
    k :| 0 <= k < |subs| && subs[k] == c;
  }

  lemma {:induction false} Embedding(ran: seq<R.Execution>, subs: seq<Command>) returns (places: seq<nat>)
    requires R.Chain(ran) && G.Ordered(subs) && forall e :: e in ran ==> e.cmd in subs
    ensures Embeds(Commands(ran), subs, places)
    decreases |ran|
  {
    if ran == [] {
      places := [];
    } else {
      var n := |ran| - 1;
      var front := Embedding(ran[..n], subs);
      assert ran[n] in ran;
      var k := PlaceOf(subs, ran[n].cmd);
      places := front + [k];
      forall i | 0 <= i < n ensures places[i] < k {
        R.ChainOrder(ran, i, n);
        assert subs[front[i]] == ran[i].cmd;
      }
    }
  }

  /** The node executes a subsequence of what the gateway submitted, with type and
      arguments unaltered; no (session, number) twice; and in every session a gapless
      run of numbers from zero. */
  lemma ExecutesInOrderAtMostOnce(env: R.Env, s: Sys)
    requires Reachable(env, s)
    ensures exists places :: Embeds(Commands(s.node.ran), s.gw.subs, places)
    ensures forall i, j :: 0 <= i < j < |s.node.ran| ==>
              G.Before(s.node.ran[i].cmd, s.node.ran[j].cmd)
    ensures forall j, num :: 0 <= j < |s.node.ran| && 0 <= num <= s.node.ran[j].cmd.num ==>
              Ran(s.node.ran, s.node.ran[j].cmd.session, num)
  {
    ReachableInv(env, s);
    var ran := s.node.ran;
    var places := Embedding(ran, s.gw.subs);
    forall i, j | 0 <= i < j < |ran| ensures G.Before(ran[i].cmd, ran[j].cmd) { R.ChainOrder(ran, i, j); }
    forall j, num | 0 <= j < |ran| && 0 <= num <= ran[j].cmd.num ensures Ran(ran, ran[j].cmd.session, num) {
      var i := R.ChainPrefix(ran, j, num);
    }
  }

  ghost predicate Ran(ran: seq<R.Execution>, session: U64, num: int) {
    exists i :: 0 <= i < |ran| && ran[i].cmd.session == session && ran[i].cmd.num == num
  }

  // ------------------------------------------------------------ no false success

  lemma HookStep(env: R.Env, s: Sys, ev: Event)
    requires T.Shape(s.gw.t) && N.FromHook(env, s.node)
    ensures N.FromHook(env, Next(env, s, ev).node)
  {
    if Enabled(env, s, ev) {
      match ev
      case Gateway(_) =>
      case ToNode(x) => N.OnFrameFromHook(env, s.node, T.Wire(x));
      case NodeTick(order) => N.OnTickFromHook(env, s.node, order);
    }
  }

  lemma {:induction false} HookFrom(env: R.Env, s: Sys, events: seq<Event>)
    requires Inv(s) && N.FromHook(env, s.node)
    ensures N.FromHook(env, After(env, s, events).node)
    decreases |events|
  {
    if events != [] {
      NextInv(env, s, events[0]);
      HookStep(env, s, events[0]);
      HookFrom(env, Next(env, s, events[0]), events[1..]);
    }
  }

  lemma ReachableHook(env: R.Env, s: Sys)
    requires Reachable(env, s)
    ensures N.FromHook(env, s.node)
  {
    var s0, events :| Init(s0) && (InitInv(s0); s == After(env, s0, events));
    InitInv(s0);
    HookFrom(env, s0, events);
  }

  /** The i-th execution is of the reported command, is reported with the bytes it
      produced, and these are the bytes of the hook's reply to it. */
  ghost predicate Behind(env: R.Env, s: Sys, r: G.Report, i: int) {
    && 0 <= i < |s.node.ran| <= s.node.runs && Witness(s, r, i)
    && N.ProducedBy(r.done.result, env.reply(s.node.runs - |s.node.ran| + i))
  }

  ghost predicate ExecutedOnce(env: R.Env, s: Sys, r: G.Report) {
    && (exists i :: Behind(env, s, r, i))
    && forall i, j ::
         (0 <= i < |s.node.ran| && 0 <= j < |s.node.ran| && Key(s.node.ran[i], r) && Key(s.node.ran[j], r)) ==> i == j
  }

  lemma SuccessIsExecuted(env: R.Env, s: Sys, r: G.Report)
    requires Inv(s) && N.FromHook(env, s.node) && r in s.gw.reports && r.done.error.NoError?
    ensures ExecutedOnce(env, s, r)
  {
    SuccessHasRun(env, s, r);
    var ran := s.node.ran;
    forall i, j | 0 <= i < |ran| && 0 <= j < |ran| && Key(ran[i], r) && Key(ran[j], r) ensures i == j {
      OneRun(ran, r, i, j);
    }
  }

  lemma SuccessHasRun(env: R.Env, s: Sys, r: G.Report)
    requires R.Sound(s.node, Told(s)) && Honest(s) && N.FromHook(env, s.node)
    requires r in s.gw.reports && r.done.error.NoError?
    ensures exists i :: Behind(env, s, r, i)
  {
    var ran := s.node.ran;
    assert Proven(s, r);
    var e :| e in ran && e.cmd.session == r.session && e.cmd.num == r.done.num
             && e.cmd.kind == r.done.kind && e.result == r.done.result;
    var i :| 0 <= i < |ran| && ran[i] == e;
    assert Witness(s, r, i);
    assert Behind(env, s, r, i);
  }

  /** A success the gateway reports is one execution at the node, the only one of that
      number, of that very command, and carries the bytes the hook produced for it. */
  lemma NoFalseSuccess(env: R.Env, s: Sys, r: G.Report)
    requires Reachable(env, s) && r in s.gw.reports && r.done.error.NoError?
    ensures ExecutedOnce(env, s, r)
  {
    ReachableInv(env, s);
    ReachableHook(env, s);
    SuccessIsExecuted(env, s, r);
  }

  lemma OneRun(ran: seq<R.Execution>, r: G.Report, i: nat, j: nat)
    requires R.Chain(ran) && i < |ran| && j < |ran| && Key(ran[i], r) && Key(ran[j], r)
    ensures i == j
  {
    if i < j { R.ChainOrder(ran, i, j); }
    if j < i { R.ChainOrder(ran, j, i); }
  }

  ghost predicate Key(e: R.Execution, r: G.Report) { e.cmd.session == r.session && e.cmd.num == r.done.num }

  ghost predicate Witness(s: Sys, r: G.Report, i: nat)
    requires i < |s.node.ran|
  {
    var e := s.node.ran[i];
    Key(e, r) && e.cmd.kind == r.done.kind && e.result == r.done.result && e.cmd in s.gw.subs
  }

  // --------------------------------------------------------------- session fence

  /** Ready means the node is in the same session, and a node left or closed for a
      session never comes back to it: nothing of it executes from then on. */
  lemma SessionFence(env: R.Env, s: Sys, events: seq<Event>)
    requires Reachable(env, s)
    ensures s.gw.t.phase.Ready? ==> s.node.node.session == s.gw.t.session
    ensures Inv(s) && s.node.ran <= After(env, s, events).node.ran
    ensures forall e :: e in After(env, s, events).node.ran[|s.node.ran|..] ==>
              && e.cmd.session >= s.node.node.session
              && (!s.node.node.active ==> e.cmd.session > s.node.node.session)
  {
    ReachableInv(env, s);
    NothingOldExecutes(env, s, events);
  }

  /** Executions of one call all happen in a session that was live before the call. */
  ghost predicate NewIn(r: R.Run, r1: R.Run) {
    forall i :: |r.ran| <= i < |r1.ran| ==> r1.ran[i].cmd.session == r.node.session && r.node.active
  }

  lemma {:induction false} DeliverNewIn(env: R.Env, r: R.Run)
    ensures NewIn(r, R.Deliver(env, r))
    decreases 256 - r.node.base
  {
    if r.node.base < 256 {
      var r1 := R.Scan(env, r);
      if R.Deliverable(r1.node) {
        var r2 := R.Execute(env, r1);
        DeliverNewIn(env, r2);
        DeliverLog(env, r2);
        assert r2.ran[|r.ran|].cmd.session == r.node.session;
      }
    }
  }

  lemma OnFrameNewIn(env: R.Env, r: R.Run, f: Frame)
    ensures NewIn(r, R.OnFrame(env, r, f))
  {
    var r0, p := R.Scan(env, r), f.payload;
    if f.kind == SR_COMMAND && 10 <= |p| {
      var stored := R.Store(r0, env.Read(r.readings), p[8], p[9], p[10..]);
      DeliverNewIn(env, R.Emit(stored, ReceivedFrame(r0.node.session, p[8])));
    }
  }

  lemma NextMoves(env: R.Env, s: Sys, ev: Event)
    requires Inv(s)
    ensures NewIn(s.node, Next(env, s, ev).node) && R.Later(s.node.node, Next(env, s, ev).node.node)
    ensures s.node.ran <= Next(env, s, ev).node.ran
  {
    if Enabled(env, s, ev) {
      match ev
      case Gateway(_) =>
      case ToNode(x) =>
        WireCarries(s, x);
        R.OnFrameKeeps(env, s.node, T.Wire(x), Told(s));
        OnFrameNewIn(env, s.node, T.Wire(x));
        OnFrameLog(env, s.node, T.Wire(x));
      case NodeTick(order) => R.OnTickKeeps(env, s.node, order, Told(s));
    }
  }

  lemma {:induction false} NothingOldExecutes(env: R.Env, s: Sys, events: seq<Event>)
    requires Inv(s)
    ensures s.node.ran <= After(env, s, events).node.ran
    ensures R.Later(s.node.node, After(env, s, events).node.node)
    ensures forall i :: |s.node.ran| <= i < |After(env, s, events).node.ran| ==>
              Newer(s.node.node, After(env, s, events).node.ran[i])
    decreases |events|
  {
    if events != [] {
      var s1, s2 := Next(env, s, events[0]), After(env, s, events);
      NextMoves(env, s, events[0]);
      NextInv(env, s, events[0]);
      NothingOldExecutes(env, s1, events[1..]);
      R.LaterTransitive(s.node.node, s1.node.node, s2.node.node);
      forall i | |s.node.ran| <= i < |s2.node.ran| ensures Newer(s.node.node, s2.node.ran[i]) {
        if i < |s1.node.ran| {
          assert s2.node.ran[i] == s1.node.ran[i];
        } else {
          assert Newer(s1.node.node, s2.node.ran[i]);
        }
      }
    }
  }

  ghost predicate Newer(n: R.Node, e: R.Execution) {
    e.cmd.session >= n.session && (!n.active ==> e.cmd.session > n.session)
  }

  // ------------------------------------------------------------ window agreement

  /** All numbers below the sender's base are held, and the receiver at rest holds
      nothing at its own base. */
  lemma BaseCovered(t: T.Tracker, n: R.Node)
    requires T.Window(t) && R.Rest(n) && n.active && n.session == t.session
    requires forall q: Byte :: t.received[q] ==> R.Held(n, t.session, q)
    ensures t.base <= n.base
  {
    var b := n.base;
    if b < 256 { assert t.received[b] ==> R.Held(n, t.session, b); }
  }

  lemma WindowsOverlap(s: Sys)
    requires Inv(s) && s.gw.t.phase.Ready? && s.node.node.active
    ensures s.gw.t.base <= s.node.node.base <= s.gw.t.next <= s.gw.t.base + WINDOW
  {
    BaseCovered(s.gw.t, s.node.node);
    var ran := s.node.ran;
    if s.node.node.base > 0 { assert ran[|ran| - 1] in ran; }
  }

  /** Whatever was submitted belongs to the node's session or an earlier one, and in a live
      session it is not to the right of what the node accepts. */
  ghost predicate WithinReach(s: Sys) {
    forall c :: c in s.gw.subs ==>
      && c.session <= s.node.node.session
      && (s.node.node.active && c.session == s.node.node.session ==> c.num < s.node.node.base + WINDOW)
  }

  lemma ReachStep(env: R.Env, s: Sys, ev: Event)
    requires Inv(s) && WithinReach(s)
    ensures WithinReach(Next(env, s, ev))
  {
    NextMoves(env, s, ev);
    if ev.Gateway? && Enabled(env, s, ev) && G.Submitted(s.gw.t, ev.input) != [] && s.node.node.active {
      WindowsOverlap(s);
    }
  }

  lemma {:induction false} ReachFrom(env: R.Env, s: Sys, events: seq<Event>)
    requires Inv(s) && WithinReach(s)
    ensures WithinReach(After(env, s, events))
    decreases |events|
  {
    if events != [] {
      NextInv(env, s, events[0]);
      ReachStep(env, s, events[0]);
      ReachFrom(env, Next(env, s, events[0]), events[1..]);
    }
  }

  /** The two windows overlap as they must. Nothing the gateway ever sent in a session that
      is still alive at the node, whether or not the gateway is still in it, is to the right
      of what the node accepts. */
  lemma WindowAgreement(env: R.Env, s: Sys)
    requires Reachable(env, s)
    ensures s.gw.t.phase.Ready? && s.node.node.active ==>
              s.gw.t.base <= s.node.node.base <= s.gw.t.next <= s.gw.t.base + WINDOW
    ensures forall x :: x in s.gw.issued && x.kind == SR_COMMAND ==>
              && x.session <= s.node.node.session
              && (s.node.node.active && x.session == s.node.node.session ==> x.num < s.node.node.base + WINDOW)
  {
    ReachableInv(env, s);
    if s.gw.t.phase.Ready? && s.node.node.active { WindowsOverlap(s); }
    var s0, events :| Init(s0) && (InitInv(s0); s == After(env, s0, events));
    InitInv(s0);
    ReachFrom(env, s0, events);
    SentWithinReach(s);
  }

  lemma SentWithinReach(s: Sys)
    requires G.Inv(s.gw) && WithinReach(s)
    ensures forall x :: x in s.gw.issued && x.kind == SR_COMMAND ==>
              && x.session <= s.node.node.session
              && (s.node.node.active && x.session == s.node.node.session ==> x.num < s.node.node.base + WINDOW)
  {
    forall x | x in s.gw.issued && x.kind == SR_COMMAND
      ensures x.session <= s.node.node.session
      ensures s.node.node.active && x.session == s.node.node.session ==> x.num < s.node.node.base + WINDOW
    {
      assert S.Handed(s.gw.t, x);
      assert G.CommandOf(x) in s.gw.subs;
    }
  }

  // ------------------------------------------------------------ result stability

  /** All RESULT frames ever sent for one (session, number) are the same bytes. */
  lemma ResultStability(env: R.Env, s: Sys, f: Frame, g: Frame)
    requires Reachable(env, s) && f in s.node.out && g in s.node.out
    requires f.kind == SR_RESULT && g.kind == SR_RESULT && |f.payload| >= 9 && |g.payload| >= 9
    requires f.payload[..9] == g.payload[..9]
    ensures f == g
  {
    ReachableInv(env, s);
    var a := ResultSource(s.node, Told(s), f);
    var b := ResultSource(s.node, Told(s), g);
    BodyFields(a.cmd.session, a.cmd.num, a.cmd.kind, a.result);
    BodyFields(b.cmd.session, b.cmd.num, b.cmd.kind, b.result);
    assert f.payload[..9][..8] == f.payload[..8] && g.payload[..9][..8] == g.payload[..8];
    assert f.payload[8] == f.payload[..9][8] && g.payload[8] == g.payload[..9][8];
    SameExecution(s.node.ran, a, b);
  }

  lemma SameExecution(ran: seq<R.Execution>, a: R.Execution, b: R.Execution)
    requires R.Chain(ran) && a in ran && b in ran && a.cmd.session == b.cmd.session && a.cmd.num == b.cmd.num
    ensures a == b
  {
    var i :| 0 <= i < |ran| && ran[i] == a;
    var j :| 0 <= j < |ran| && ran[j] == b;
    if i < j { R.ChainOrder(ran, i, j); }
    if j < i { R.ChainOrder(ran, j, i); }
  }

  /** Once confirmed with RECEIVED, a command stays with the node in every later state
      until its session closes or is superseded. */
  lemma ReceivedMeansHeld(env: R.Env, s: Sys, session: U64, q: Byte, events: seq<Event>)
    requires Reachable(env, s) && ReceivedFrame(session, q) in s.node.out
    ensures Inv(s) && R.Held(After(env, s, events).node.node, session, q)
  {
    ReachableInv(env, s);
    NothingOldExecutes(env, s, events);
    SessionRoundTrip(session, [q]);
    SentShowsHeld(s.node, Told(s), ReceivedFrame(session, q));
    R.HeldLater(s.node.node, After(env, s, events).node.node, session, q);
  }

  // --------------------------------------------------------------- timer resends

  /** No call but a tick touches a filed result: replays neither refresh its age nor
      its retry count, and a result that appears was produced in this very call. */
  ghost predicate CacheKept(r: R.Run, r1: R.Run) {
    forall q :: q in r1.node.live && r1.node.live[q].Executed? ==>
      || (r1.node.session == r.node.session && q in r.node.live && r1.node.live[q] == r.node.live[q])
      || (r1.node.live[q].retries == 0 && RanSince(r, r1, q))
  }

  ghost predicate RanSince(r: R.Run, r1: R.Run, q: Byte) {
    exists i :: |r.ran| <= i < |r1.ran| && r1.ran[i].cmd.session == r1.node.session && r1.ran[i].cmd.num == q
  }

  lemma ExecuteCache(env: R.Env, r: R.Run)
    requires R.Deliverable(r.node)
    ensures CacheKept(r, R.Execute(env, r))
  {
    var r1 := R.Execute(env, r);
    assert r1.ran[|r.ran|].cmd.session == r1.node.session && r1.ran[|r.ran|].cmd.num == r.node.base;
  }

  lemma CacheChain(a: R.Run, b: R.Run, c: R.Run)
    requires CacheKept(a, b) && CacheKept(b, c) && a.ran <= b.ran <= c.ran
    requires c.node.session == b.node.session
    ensures CacheKept(a, c)
  {
    forall q | q in c.node.live && c.node.live[q].Executed?
      ensures || (c.node.session == a.node.session && q in a.node.live && c.node.live[q] == a.node.live[q])
              || (c.node.live[q].retries == 0 && RanSince(a, c, q))
    {
      if q in b.node.live && c.node.live[q] == b.node.live[q] {
        if RanSince(a, b, q) {
          var i :| |a.ran| <= i < |b.ran| && b.ran[i].cmd.session == b.node.session && b.ran[i].cmd.num == q;
          assert c.ran[i] == b.ran[i];
          assert RanSince(a, c, q);
        }
      }
    }
  }

  lemma {:induction false} DeliverCache(env: R.Env, r: R.Run)
    ensures CacheKept(r, R.Deliver(env, r))
    ensures R.Deliver(env, r).node.session == r.node.session
    decreases 256 - r.node.base
  {
    if r.node.base < 256 {
      var r1 := R.Scan(env, r);
      if R.Deliverable(r1.node) {
        var r2 := R.Execute(env, r1);
        ExecuteCache(env, r1);
        CacheChain(r, r1, r2);
        DeliverCache(env, r2);
        DeliverLog(env, r2);
        CacheChain(r, r2, R.Deliver(env, r2));
      }
    }
  }

  lemma OnFrameCache(env: R.Env, r: R.Run, f: Frame)
    ensures CacheKept(r, R.OnFrame(env, r, f))
  {
    var r0, p := R.Scan(env, r), f.payload;
    if f.kind == SR_COMMAND && 10 <= |p| {
      var stored := R.Store(r0, env.Read(r.readings), p[8], p[9], p[10..]);
      var sent := R.Emit(stored, ReceivedFrame(r0.node.session, p[8]));
      DeliverCache(env, sent);
      DeliverLog(env, sent);
      CacheChain(r, sent, R.Deliver(env, sent));
    }
  }

  ghost function FrameOf(e: R.Execution): Frame {
    ResultFrame(e.cmd.session, e.cmd.num, e.cmd.kind, e.result)
  }

  lemma FrameKey(a: R.Execution, b: R.Execution)
    requires FrameOf(a) == FrameOf(b)
    ensures a.cmd.session == b.cmd.session && a.cmd.num == b.cmd.num
  {
    BodyFields(a.cmd.session, a.cmd.num, a.cmd.kind, a.result);
    BodyFields(b.cmd.session, b.cmd.num, b.cmd.kind, b.result);
  }

  /** `resent` counts the timer resends: it agrees with the live retry counters. */
  ghost predicate Resends(s: Sys) {
    && (forall f :: f in s.resent ==> s.resent[f] <= MAX_RETRY && exists e :: e in s.node.ran && f == FrameOf(e))
    && (forall q :: q in s.node.node.live && s.node.node.live[q].Executed? ==>
          s.resent[R.ResultOf(s.node.node, q)] == s.node.node.live[q].retries)
  }

  lemma ResendsCall(s: Sys, r1: R.Run)
    requires Resends(s) && CacheKept(s.node, r1) && s.node.ran <= r1.ran && R.Sound(r1, Told(s))
    ensures Resends(s.(node := r1))
  {
    var n, m := s.node.node, r1.node;
    forall q | q in m.live && m.live[q].Executed? ensures s.resent[R.ResultOf(m, q)] == m.live[q].retries {
      if m.session == n.session && q in n.live && m.live[q] == n.live[q] {
        assert R.ResultOf(m, q) == R.ResultOf(n, q);
      } else {
        FreshNotResent(s, r1, q);
      }
    }
  }

  lemma ResendsToNode(env: R.Env, s: Sys, x: T.Send)
    requires Inv(s) && Resends(s) && x in s.gw.issued
    ensures Resends(s.(node := R.OnFrame(env, s.node, T.Wire(x))))
  {
    OnFrameCache(env, s.node, T.Wire(x));
    OnFrameLog(env, s.node, T.Wire(x));
    WireCarries(s, x);
    R.OnFrameKeeps(env, s.node, T.Wire(x), Told(s));
    ResendsCall(s, R.OnFrame(env, s.node, T.Wire(x)));
  }

  lemma FreshNotResent(s: Sys, r1: R.Run, q: Byte)
    requires Resends(s) && R.Sound(r1, Told(s)) && s.node.ran <= r1.ran
    requires q in r1.node.live && r1.node.live[q].Executed? && RanSince(s.node, r1, q)
    ensures s.resent[R.ResultOf(r1.node, q)] == 0
  {
    var i :| |s.node.ran| <= i < |r1.ran| && r1.ran[i].cmd.session == r1.node.session && r1.ran[i].cmd.num == q;
    var e := r1.node.live[q];
    var x := R.Execution(Command(r1.node.session, q, e.command, e.args), e.result);
    if R.ResultOf(r1.node, q) in s.resent {
      var y :| y in s.node.ran && R.ResultOf(r1.node, q) == FrameOf(y);
      var j :| 0 <= j < |s.node.ran| && s.node.ran[j] == y;
      FrameKey(x, y);
      assert r1.ran[j] == y;
      R.ChainOrder(r1.ran, j, i);
      assert false;
    }
  }

  lemma DistinctCount<X>(xs: seq<X>, x: X)
    requires R.Distinct(xs)
    ensures multiset(xs)[x] == if x in xs then 1 else 0
  {
    if xs != [] {
      var n := |xs| - 1;
      DistinctCount(xs[..n], x);
      assert xs == xs[..n] + [xs[n]];
    }
  }

  lemma ResultsDistinct(n: R.Node, order: seq<Byte>)
    requires R.Distinct(order) && forall q :: q in order ==> q in n.live && n.live[q].Executed?
    ensures R.Distinct(R.Results(n, order))
    ensures forall q :: q in n.live && n.live[q].Executed? && R.ResultOf(n, q) in R.Results(n, order) ==> q in order
  {
    forall q, p: Byte | q in n.live && n.live[q].Executed? && p in n.live && n.live[p].Executed?
                       && R.ResultOf(n, q) == R.ResultOf(n, p)
      ensures q == p
    {
      BodyFields(n.session, q, n.live[q].command, n.live[q].result);
      BodyFields(n.session, p, n.live[p].command, n.live[p].result);
    }
  }

  /** Adding one resend for each listed result matches bumping its retry counter. */
  lemma ResendsCount(s: Sys, n: R.Node, order: seq<Byte>, q: Byte)
    requires R.Distinct(order) && forall p :: p in order ==> p in n.live && n.live[p].Executed?
    requires q in n.live && n.live[q].Executed?
    ensures (s.resent + multiset(R.Results(n, order)))[R.ResultOf(n, q)]
         == s.resent[R.ResultOf(n, q)] + (if q in order then 1 else 0)
  {
    var fs, f := R.Results(n, order), R.ResultOf(n, q);
    ResultsDistinct(n, order);
    DistinctCount(fs, f);
    if q in order {
      var i :| 0 <= i < |order| && order[i] == q;
      assert fs[i] == f;
    }
  }

  /** The scan at the start of a tick only drops results. */
  lemma ResendsScan(env: R.Env, s: Sys)
    requires Inv(s) && Resends(s)
    ensures R.Sound(R.Scan(env, s.node), Told(s)) && Resends(s.(node := R.Scan(env, s.node)))
  {
    R.ScanKeeps(env, s.node, Told(s));
    ResendsCall(s, R.Scan(env, s.node));
  }

  lemma ResendsSweep(env: R.Env, s: Sys, now: nat, order: seq<Byte>)
    requires Resends(s) && R.Sound(s.node, Told(s)) && R.Lists(order, R.DueSet(env, s.node.node, now))
    ensures forall q :: q in order ==> q in s.node.node.live && s.node.node.live[q].Executed?
    ensures Resends(s.(node := s.node.(node := R.Resend(env, s.node.node, now)),
                       resent := s.resent + multiset(R.Results(s.node.node, order))))
  {
    var n, m := s.node.node, R.Resend(env, s.node.node, now);
    assert forall q :: q in order ==> q in R.DueSet(env, n, now);
    var more := s.resent + multiset(R.Results(n, order));
    forall q | q in m.live && m.live[q].Executed? ensures more[R.ResultOf(m, q)] == m.live[q].retries {
      ResendsCount(s, n, order, q);
      assert q in order <==> q in R.DueSet(env, n, now);
    }
    forall f | f in more ensures more[f] <= MAX_RETRY && exists e :: e in s.node.ran && f == FrameOf(e) {
      ResentOne(env, s, now, order, f);
    }
  }

  lemma ResentOne(env: R.Env, s: Sys, now: nat, order: seq<Byte>, f: Frame)
    requires Resends(s) && R.Sound(s.node, Told(s)) && R.Lists(order, R.DueSet(env, s.node.node, now))
    requires forall q :: q in order ==> q in s.node.node.live && s.node.node.live[q].Executed?
    requires f in s.resent + multiset(R.Results(s.node.node, order))
    ensures (s.resent + multiset(R.Results(s.node.node, order)))[f] <= MAX_RETRY
    ensures exists e :: e in s.node.ran && f == FrameOf(e)
  {
    var fs := R.Results(s.node.node, order);
    ResultsDistinct(s.node.node, order);
    DistinctCount(fs, f);
    if f in fs {
      var i :| 0 <= i < |order| && f == fs[i];
      assert order[i] in order && order[i] in R.DueSet(env, s.node.node, now);
      ResultFiled(s, order[i]);
    }
  }

  lemma ResultFiled(s: Sys, q: Byte)
    requires R.Sound(s.node, Told(s)) && q in s.node.node.live && s.node.node.live[q].Executed?
    ensures exists e :: e in s.node.ran && R.ResultOf(s.node.node, q) == FrameOf(e)
  {
    var n := s.node.node;
    var e := R.Execution(Command(n.session, q, n.live[q].command, n.live[q].args), n.live[q].result);
    assert e in s.node.ran && R.ResultOf(n, q) == FrameOf(e);
  }

  lemma ResendsTick(env: R.Env, s: Sys, order: seq<Byte>)
    requires Inv(s) && Resends(s) && R.Lists(order, R.TickDue(env, s.node))
    ensures Resends(Next(env, s, NodeTick(order)))
  {
    ResendsScan(env, s);
    ResendsSweep(env, s.(node := R.Scan(env, s.node)), env.Read(s.node.readings), order);
  }

  lemma {:induction false} ResendsInv(env: R.Env, s: Sys, events: seq<Event>)
    requires Inv(s) && Resends(s)
    ensures Resends(After(env, s, events))
    decreases |events|
  {
    if events != [] {
      var ev := events[0];
      if Enabled(env, s, ev) {
        match ev
        case Gateway(_) =>
        case ToNode(x) => ResendsToNode(env, s, x);
        case NodeTick(order) => ResendsTick(env, s, order);
      }
      NextInv(env, s, ev);
      ResendsInv(env, Next(env, s, ev), events[1..]);
    }
  }

  /** The retry timer repeats a result at most three times, ever. */
  lemma AtMostThreeResends(env: R.Env, s: Sys, f: Frame)
    requires Reachable(env, s)
    ensures s.resent[f] <= MAX_RETRY
  {
    var s0, events :| Init(s0) && (InitInv(s0); s == After(env, s0, events));
    InitInv(s0);
    ResendsInit(s0);
    ResendsInv(env, s0, events);
  }

  lemma ResendsInit(s: Sys)
    requires Init(s)
    ensures Resends(s)
  {}
}
