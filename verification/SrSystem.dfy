/** Gateway and node together. Everything either side ever handed out may arrive at
    the other at any later time, any number of times, in any order, or never; the
    two ends take their steps in any interleaving. */
module SrSystem {
  import opened Protocol
  import T = Tracker
  import S = Sends
  import G = Sender
  import R = Receiver

  /** `gw.issued` and `node.out` are the two channels: all transmissions ever made.
      `gw.subs`, `node.ran` and `gw.reports` log submissions, executions, completions. */
  datatype Sys = Sys(gw: G.Ledger, node: R.Run, resent: multiset<Frame>)

  datatype Event =
    | Gateway(input: G.Input)
    | ToNode(send: T.Send)
    | NodeTick(order: seq<Byte>)

  function Told(s: Sys): set<Command> { set c | c in s.gw.subs }

  /** The gateway only receives frames the node sent, the node only frames the
      gateway issued; everything else may happen at any time. */
  predicate Enabled(env: R.Env, s: Sys, ev: Event) {
    match ev
    case Gateway(input) => input.Got? ==> input.frame in s.node.out
    case ToNode(send) => send in s.gw.issued
    case NodeTick(order) => R.Lists(order, R.TickDue(env, s.node))
  }

  /** One atomic step; an event that is not enabled changes nothing. */
  function Next(env: R.Env, s: Sys, ev: Event): Sys
    requires T.Shape(s.gw.t)
  {
    if !Enabled(env, s, ev) then s else
    match ev
    case Gateway(input) => s.(gw := G.Advance(s.gw, input))
    case ToNode(send) => s.(node := R.OnFrame(env, s.node, T.Wire(send)))
    case NodeTick(order) =>
      s.(node := R.OnTick(env, s.node, order),
         resent := s.resent + multiset(R.Results(R.Scan(env, s.node).node, order)))
  }

  // ================================================================ invariant

  ghost predicate Acknowledges(f: Frame, session: U64) { f == OpenAckFrame(session, session, RC_OK) }

  /** Who can be in which session. */
  ghost predicate Fence(s: Sys) {
    && (s.node.node.active ==> s.node.node.session <= s.gw.t.session)
    && (forall f, x: U64 :: f in s.node.out && Acknowledges(f, x) ==>
          x <= s.node.node.session <= s.gw.t.session)
    && (s.gw.t.phase.Ready? ==> s.node.node.session == s.gw.t.session)
  }

  /** Acknowledged numbers really are with the node, as long as its session lives. */
  ghost predicate Agreement(s: Sys) {
    T.Shape(s.gw.t) && (s.gw.t.phase.Ready? ==>
      forall q: Byte :: s.gw.t.received[q] ==> R.Held(s.node.node, s.gw.t.session, q))
  }

  ghost predicate Proven(s: Sys, r: G.Report) {
    exists e :: e in s.node.ran && e.cmd.session == r.session && e.cmd.num == r.done.num
                && e.cmd.kind == r.done.kind && e.result == r.done.result
  }

  ghost predicate Honest(s: Sys) {
    forall r :: r in s.gw.reports && r.done.error.NoError? ==> Proven(s, r)
  }

  ghost predicate Inv(s: Sys) {
    && G.Inv(s.gw) && R.Rest(s.node.node) && R.Sound(s.node, Told(s))
    && Fence(s) && Agreement(s) && Honest(s)
  }

  /** A fresh gateway process, and a node that is not in any live session but may
      remember an arbitrary high-water mark. */
  ghost predicate Init(s: Sys) {
    && G.Init(s.gw) && R.Rest(s.node.node) && !s.node.node.active
    && s.node.out == [] && s.node.ran == [] && s.resent == multiset{}
  }

  lemma InitInv(s: Sys)
    requires Init(s)
    ensures Inv(s)
  {
    G.InitInv(s.gw);
  }

  // ------------------------------------------------------ steps of the gateway

  /** Which frame can make the tracker ready. */
  lemma ReadyOnlyBy(t: T.Tracker, input: G.Input)
    requires T.Valid(t) && G.React(t, input).t.phase.Ready?
    ensures G.React(t, input).t.session == t.session
    ensures t.phase.Ready? || (input.Got? && t.phase.Opening? && OkAck(input.frame, t.session))
  {
    match input
    case Restart(_, _) =>
    case Offer(_, _, _) =>
    case Written(s, ok, now) => WriteReceivesNothing(t, s, ok, now);
    case Clock(now) => TickReceivesNothing(t, now);
    case Got(f, now) => FrameMakesReady(t, f, now);
  }

  lemma FrameMakesReady(t: T.Tracker, f: Frame, now: int)
    requires T.Valid(t) && T.OnFrame(t, f, now).t.phase.Ready?
    ensures T.OnFrame(t, f, now).t.session == t.session
    ensures t.phase.Ready? || (t.phase.Opening? && OkAck(f, t.session))
  {}

  ghost predicate OkAck(f: Frame, session: U64) {
    && f.kind == SR_OPEN_ACK && |f.payload| == 17 && SessionOf(f.payload) == session
    && SessionOf(f.payload[8..]) == session && f.payload[16] == RC_OK
  }

  /** Such a frame has the one byte layout the node would have used. */
  lemma OkAckShape(f: Frame, session: U64)
    requires OkAck(f, session)
    ensures Acknowledges(f, session)
  {
    var p := f.payload;
    assert p == p[..8] + p[8..16] + [p[16]];
    assert p[8..][..8] == p[8..16];
  }

  lemma FenceGateway(s: Sys, input: G.Input)
    requires Inv(s) && (input.Got? ==> input.frame in s.node.out)
    ensures Fence(s.(gw := G.Advance(s.gw, input)))
  {
    var t := s.gw.t;
    G.ReactKeeps(t, input);
    if G.React(t, input).t.phase.Ready? {
      ReadyOnlyBy(t, input);
      if !t.phase.Ready? { OkAckShape(input.frame, t.session); }
    }
  }

  /** A RECEIVED or RESULT of the tracker's session, about number q. */
  ghost predicate Concerns(f: Frame, t: T.Tracker, q: Byte) {
    && f.kind in {SR_RECEIVED, SR_RESULT} && 9 <= |f.payload|
    && SessionOf(f.payload) == t.session && f.payload[8] == q
  }

  lemma OnFrameReceives(t: T.Tracker, f: Frame, now: int, q: Byte)
    requires T.Valid(t) && T.Shape(T.OnFrame(t, f, now).t)
    requires T.OnFrame(t, f, now).t.phase.Ready? && T.OnFrame(t, f, now).t.received[q]
    ensures t.received[q] || Concerns(f, t, q)
  {}

  lemma OthersReceiveNothing(t: T.Tracker, input: G.Input)
    requires T.Valid(t) && !input.Got? && G.React(t, input).t.phase.Ready?
    ensures G.React(t, input).t.received == t.received
  {
    match input
    case Restart(_, _) =>
    case Offer(_, _, _) =>
    case Written(s, ok, now) => WriteReceivesNothing(t, s, ok, now);
    case Clock(now) => TickReceivesNothing(t, now);
  }

  lemma WriteReceivesNothing(t: T.Tracker, s: T.Send, ok: bool, now: int)
    requires T.Valid(t) && T.OnWritten(t, s, ok, now).t.phase.Ready?
    ensures T.OnWritten(t, s, ok, now).t.received == t.received
    ensures T.OnWritten(t, s, ok, now).t.session == t.session && t.phase.Ready?
  {}

  lemma TickReceivesNothing(t: T.Tracker, now: int)
    requires T.Valid(t) && T.Tick(t, now).t.phase.Ready?
    ensures T.Tick(t, now).t.received == t.received
    ensures T.Tick(t, now).t.session == t.session && t.phase.Ready?
  {}

  /** A RECEIVED or RESULT the node sent shows that it holds the command. */
  lemma SentShowsHeld(r: R.Run, told: set<Command>, f: Frame)
    requires R.Sound(r, told) && f in r.out && f.kind in {SR_RECEIVED, SR_RESULT} && |f.payload| >= 9
    ensures R.Held(r.node, SessionOf(f.payload), f.payload[8])
  {
    assert R.Sent(f, r.node, r.ran);
    if s, q :| f == ReceivedFrame(s, q) && R.Held(r.node, s, q) {
      SessionRoundTrip(s, [q]);
    } else {
      var e := ResultSource(r, told, f);
      R.ExecutedLeftOfEdge(r.node, r.ran, e);
      BodyFields(e.cmd.session, e.cmd.num, e.cmd.kind, e.result);
    }
  }

  /** Behind every RESULT on the wire stands one execution. */
  lemma ResultSource(r: R.Run, told: set<Command>, f: Frame) returns (e: R.Execution)
    requires R.Sound(r, told) && f in r.out && f.kind == SR_RESULT
    ensures e in r.ran && f == ResultFrame(e.cmd.session, e.cmd.num, e.cmd.kind, e.result)
  {
    assert R.Sent(f, r.node, r.ran);
    e :| e in r.ran && f == ResultFrame(e.cmd.session, e.cmd.num, e.cmd.kind, e.result);
  }

  lemma AgreementGateway(s: Sys, input: G.Input)
    requires Inv(s) && (input.Got? ==> input.frame in s.node.out)
    ensures Agreement(s.(gw := G.Advance(s.gw, input)))
  {
    var t := s.gw.t;
    G.ReactKeeps(t, input);
    var t1 := G.React(t, input).t;
    if t1.phase.Ready? {
      ReadyOnlyBy(t, input);
      forall q: Byte | t1.received[q] ensures R.Held(s.node.node, t1.session, q) {
        if !input.Got? {
          OthersReceiveNothing(t, input);
        } else {
          OnFrameReceives(t, input.frame, input.now, q);
          if !t.received[q] { SentShowsHeld(s.node, Told(s), input.frame); }
        }
      }
    }
  }

  /** A success report repeats what a RESULT frame of this session said. */
  ghost predicate Repeats(c: T.Completion, t: T.Tracker, f: Frame) {
    && f.kind == SR_RESULT && |f.payload| >= 11 && SessionOf(f.payload) == t.session
    && f.payload[8] == c.num && f.payload[9] == c.kind && f.payload[10..] == c.result
  }

  lemma OnFrameReports(t: T.Tracker, f: Frame, now: int, c: T.Completion)
    requires T.Valid(t) && c in T.OnFrame(t, f, now).finished
    ensures Repeats(c, t, f)
  {
    if c.num in t.entries { assert T.EntryOk(t, c.num, t.entries[c.num]); }
  }

  lemma OthersReportFailure(t: T.Tracker, input: G.Input, c: T.Completion)
    requires T.Valid(t) && !input.Got? && c in G.React(t, input).finished
    ensures !c.error.NoError?
  {
    match input
    case Restart(asked, now) => T.AbortedFails(t.entries, -1, T.SessionAborted, c);
    case Offer(_, _, _) =>
    case Written(send, ok, now) => T.OnWrittenFails(t, send, ok, now, c);
    case Clock(now) => T.TickFails(t, now, c);
  }

  lemma HonestGateway(s: Sys, input: G.Input)
    requires Inv(s) && (input.Got? ==> input.frame in s.node.out)
    ensures Honest(s.(gw := G.Advance(s.gw, input)))
  {
    var s1, turn := s.(gw := G.Advance(s.gw, input)), G.React(s.gw.t, input);
    forall r | r in s1.gw.reports && r.done.error.NoError? ensures Proven(s1, r) {
      if r in s.gw.reports {
        assert Proven(s, r);
      } else {
        assert r.session == s.gw.t.session && r.done in turn.finished;
        if !input.Got? { OthersReportFailure(s.gw.t, input, r.done); }
        OnFrameReports(s.gw.t, input.frame, input.now, r.done);
        var e := ResultSource(s.node, Told(s), input.frame);
        BodyFields(e.cmd.session, e.cmd.num, e.cmd.kind, e.result);
        assert Proven(s1, r);
      }
    }
  }

  lemma SoundMoreTold(r: R.Run, told: set<Command>, more: set<Command>)
    requires R.Sound(r, told) && told <= more
    ensures R.Sound(r, more)
  {}

  lemma GatewayInv(s: Sys, input: G.Input)
    requires Inv(s) && (input.Got? ==> input.frame in s.node.out)
    ensures Inv(s.(gw := G.Advance(s.gw, input)))
  {
    var s1 := s.(gw := G.Advance(s.gw, input));
    G.AdvanceInv(s.gw, input);
    FenceGateway(s, input);
    AgreementGateway(s, input);
    HonestGateway(s, input);
    SoundMoreTold(s.node, Told(s), Told(s1));
  }

  // --------------------------------------------------------- steps of the node

  /** What the node can be handed was issued, so it is a submission or harmless. */
  lemma WireCarries(s: Sys, x: T.Send)
    requires G.IssuedOk(s.gw) && x in s.gw.issued
    ensures R.Carried(T.Wire(x)) <= Told(s)
    ensures T.Wire(x).kind == SR_OPEN ==>
              |T.Wire(x).payload| == 8 && SessionOf(T.Wire(x).payload) <= s.gw.t.session
  {
    assert S.Handed(s.gw.t, x);
    var p := T.Wire(x).payload;
    SessionRoundTrip(x.session, x.tail);
    if x.kind == SR_COMMAND {
      assert p[10..] == x.tail[2..];
      assert G.CommandOf(x) in s.gw.subs;
    }
  }

  /** A node call lets only sessions the gateway has reached become current. */
  lemma FenceNode(s: Sys, r1: R.Run)
    requires Inv(s) && R.Later(s.node.node, r1.node)
    requires r1.node.session != s.node.node.session ==> r1.node.session <= s.gw.t.session
    requires forall f, x: U64 :: f in r1.out && f !in s.node.out && Acknowledges(f, x) ==>
               r1.node.active && x == r1.node.session
    ensures Fence(s.(node := r1))
  {}

  lemma AckFields(s: U64, h: U64, rc: Byte, x: U64)
    requires OpenAckFrame(s, h, rc) == OpenAckFrame(x, x, RC_OK)
    ensures s == x && h == x && rc == RC_OK
  {
    var p := U64Bytes(s) + U64Bytes(h) + [rc];
    var q := U64Bytes(x) + U64Bytes(x) + [RC_OK];
    assert p[..8] == U64Bytes(s) && q[..8] == U64Bytes(x);
    assert p[8..16] == U64Bytes(h) && q[8..16] == U64Bytes(x);
    assert p[16] == rc && q[16] == RC_OK;
  }

  /** Nothing but an OPEN call answers with an OPEN_ACK. */
  ghost predicate NoNewAcks(r: R.Run, r1: R.Run) {
    forall f :: f in r1.out && f !in r.out ==> f.kind != SR_OPEN_ACK
  }

  lemma {:induction false} DeliverNoAcks(env: R.Env, r: R.Run)
    ensures NoNewAcks(r, R.Deliver(env, r)) && R.Deliver(env, r).node.session == r.node.session
    decreases 256 - r.node.base
  {
    if r.node.base < 256 {
      var r1 := R.Scan(env, r);
      if R.Deliverable(r1.node) { DeliverNoAcks(env, R.Execute(env, r1)); }
    }
  }

  /** The session a node moves to, and the sessions it confirms, are its own. */
  lemma OnFrameAcks(env: R.Env, r: R.Run, f: Frame)
    ensures var r1 := R.OnFrame(env, r, f);
            && (forall a, x: U64 :: a in r1.out && a !in r.out && Acknowledges(a, x) ==>
                  r1.node.active && x == r1.node.session)
            && (r1.node.session != r.node.session ==>
                  f.kind == SR_OPEN && |f.payload| == 8 && r1.node.session == SessionOf(f.payload))
  {
    var r0, p := R.Scan(env, r), f.payload;
    var r1 := R.OnFrame(env, r, f);
    if 8 == |p| && f.kind == SR_OPEN {
      forall a, x: U64 | a in r1.out && a !in r.out && Acknowledges(a, x) ensures r1.node.active && x == r1.node.session {
        var n := r1.node;
        AckFields(SessionOf(p), n.session, if SessionOf(p) == n.session && n.active then RC_OK else RC_BAD_PARAM, x);
      }
    } else if f.kind == SR_COMMAND && 10 <= |p| {
      var n := r0.node;
      var stored := R.Store(r0, env.Read(r.readings), p[8], p[9], p[10..]);
      DeliverNoAcks(env, R.Emit(stored, ReceivedFrame(n.session, p[8])));
    }
  }

  lemma AgreementNode(s: Sys, r1: R.Run)
    requires Agreement(s) && R.Later(s.node.node, r1.node)
    ensures Agreement(s.(node := r1))
  {
    if s.gw.t.phase.Ready? {
      forall q: Byte | s.gw.t.received[q] ensures R.Held(r1.node, s.gw.t.session, q) {
        R.HeldLater(s.node.node, r1.node, s.gw.t.session, q);
      }
    }
  }

  lemma {:induction false} DeliverLog(env: R.Env, r: R.Run)
    ensures r.ran <= R.Deliver(env, r).ran
    decreases 256 - r.node.base
  {
    if r.node.base < 256 {
      var r1 := R.Scan(env, r);
      if R.Deliverable(r1.node) { DeliverLog(env, R.Execute(env, r1)); }
    }
  }

  /** Executions are never forgotten. */
  lemma OnFrameLog(env: R.Env, r: R.Run, f: Frame)
    ensures r.ran <= R.OnFrame(env, r, f).ran
  {
    var r0, p := R.Scan(env, r), f.payload;
    if f.kind == SR_COMMAND && 10 <= |p| {
      var n := r0.node;
      var stored := R.Store(r0, env.Read(r.readings), p[8], p[9], p[10..]);
      DeliverLog(env, R.Emit(stored, ReceivedFrame(n.session, p[8])));
    }
  }

  lemma HonestNode(s: Sys, r1: R.Run)
    requires Honest(s) && s.node.ran <= r1.ran
    ensures Honest(s.(node := r1))
  {
    forall r | r in s.gw.reports && r.done.error.NoError? ensures Proven(s.(node := r1), r) {
      assert Proven(s, r);
    }
  }

  lemma ToNodeInv(env: R.Env, s: Sys, x: T.Send)
    requires Inv(s) && x in s.gw.issued
    ensures Inv(s.(node := R.OnFrame(env, s.node, T.Wire(x))))
  {
    var f := T.Wire(x);
    var r1 := R.OnFrame(env, s.node, f);
    WireCarries(s, x);
    R.OnFrameKeeps(env, s.node, f, Told(s));
    OnFrameAcks(env, s.node, f);
    FenceNode(s, r1);
    AgreementNode(s, r1);
    OnFrameLog(env, s.node, f);
    HonestNode(s, r1);
  }

  lemma NodeTickInv(env: R.Env, s: Sys, order: seq<Byte>)
    requires Inv(s) && R.Lists(order, R.TickDue(env, s.node))
    ensures Inv(s.(node := R.OnTick(env, s.node, order)))
  {
    var r1 := R.OnTick(env, s.node, order);
    R.OnTickKeeps(env, s.node, order, Told(s));
    FenceNode(s, r1);
    AgreementNode(s, r1);
    HonestNode(s, r1);
  }

  /** Every step of either side keeps the invariant. */
  lemma NextInv(env: R.Env, s: Sys, ev: Event)
    requires Inv(s)
    ensures Inv(Next(env, s, ev))
  {
    if Enabled(env, s, ev) {
      match ev
      case Gateway(input) => GatewayInv(s, input);
      case ToNode(send) => ToNodeInv(env, s, send);
      case NodeTick(order) => NodeTickInv(env, s, order);
    }
  }
}
