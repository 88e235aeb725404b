/** Runs of gateway and node that get somewhere. */
module SrRuns {
  import opened Protocol
  import T = Tracker
  import TT = TrackerTheorems
  import G = Sender
  import R = Receiver
  import N = NodeTheorems
  import opened SrSystem
  import opened SrTheorems

  lemma {:induction false} AfterSnoc(env: R.Env, s: Sys, events: seq<Event>, ev: Event)
    requires Inv(s)
    ensures After(env, s, events + [ev]) == Next(env, After(env, s, events), ev)
    decreases |events|
  {
    if events == [] {
      assert [ev][1..] == [];
      NextInv(env, s, ev);
      assert After(env, Next(env, s, ev), []) == Next(env, s, ev);
      assert events + [ev] == [ev];
    } else {
      NextInv(env, s, events[0]);
      assert (events + [ev])[1..] == events[1..] + [ev];
      AfterSnoc(env, Next(env, s, events[0]), events[1..], ev);
    }
  }

  /** A stretch of a run: the events so far and where they lead. */
  datatype Path = Path(events: seq<Event>, at: Sys)

  ghost predicate Leads(env: R.Env, s: Sys, p: Path) { Inv(s) && p.at == After(env, s, p.events) }

  lemma Go(env: R.Env, s: Sys, p: Path, ev: Event) returns (p1: Path)
    requires Leads(env, s, p)
    ensures p1 == Path(p.events + [ev], Next(env, p.at, ev)) && Leads(env, s, p1) && Inv(p1.at)
  {
    AfterSnoc(env, s, p.events, ev);
    p1 := Path(p.events + [ev], Next(env, p.at, ev));
  }

  // ------------------------------------------------------------------ connecting

  /** Both ends in the same session, nothing sent in it yet. */
  ghost predicate Connected(s: Sys) {
    && s.gw.t.phase.Ready? && s.gw.t.next == 0 && s.gw.t.base == 0 && s.gw.t.entries == map[]
    && s.node.node == R.Node(s.gw.t.session, 0, true, map[])
  }

  function Open(session: U64): T.Send { T.Send(SR_OPEN, session, [], 0, 0) }

  /** The gateway is opening `session`, with the first OPEN written or not. */
  ghost predicate Asking(s: Sys, session: U64, written: bool) {
    var t := s.gw.t;
    && t.phase.Opening? && t.session == session && t.openPending == !written && t.openSends == (if written then 1 else 0)
    && t.openingAt == 0 && t.next == 0 && t.base == 0 && t.entries == map[]
    && s.gw.issued == [Open(session)] && s.gw.subs == []
  }

  lemma OpenIssued(env: R.Env, s: Sys)
    requires Init(s) && s.node.node.session < U64_MAX
    ensures var s1 := Next(env, s, Gateway(G.Restart(s.node.node.session + 1, 0)));
            Asking(s1, s.node.node.session + 1, false) && s1.node == s.node
  {}

  lemma OpenWritten(env: R.Env, s: Sys, session: U64)
    requires Inv(s) && Asking(s, session, false)
    ensures var s1 := Next(env, s, Gateway(G.Written(Open(session), true, 0))); Asking(s1, session, true) && s1.node == s.node
  {}

  lemma OpenHeard(env: R.Env, s: Sys, session: U64)
    requires T.Shape(s.gw.t) && Asking(s, session, true) && session > s.node.node.session
    ensures var s1 := Next(env, s, ToNode(Open(session)));
            && s1.gw == s.gw && s1.node.node == R.Node(session, 0, true, map[]) && s1.node.runs == s.node.runs
            && OpenAckFrame(session, session, 0) in s1.node.out
  {
    assert U64Bytes(session) + [] == U64Bytes(session);
    SessionRoundTrip(session, []);
    N.OpenAnswered(env, s.node, U64Bytes(session));
    var out := Next(env, s, ToNode(Open(session))).node.out;
    assert out[|out| - 1] == OpenAckFrame(session, session, 0);
  }

  lemma AnswerHeard(env: R.Env, s: Sys, session: U64)
    requires Inv(s) && Asking(s, session, true) && s.node.node == R.Node(session, 0, true, map[])
    requires OpenAckFrame(session, session, 0) in s.node.out
    ensures var s1 := Next(env, s, Gateway(G.Got(OpenAckFrame(session, session, 0), 0)));
            Connected(s1) && s1.node == s.node && s1.gw.subs == []
  {
    TT.OpenAccepted(s.gw.t, 0);
  }

  lemma Asks(env: R.Env, s: Sys) returns (p: Path)
    requires Init(s) && s.node.node.session < U64_MAX
    ensures Leads(env, s, p) && Inv(p.at) && Asking(p.at, s.node.node.session + 1, true) && p.at.node == s.node
    ensures OnlyOpens(p.events)
  {
    InitInv(s);
    OpenIssued(env, s);
    p := Go(env, s, Path([], s), Gateway(G.Restart(s.node.node.session + 1, 0)));
    OpenWritten(env, p.at, s.node.node.session + 1);
    p := Go(env, s, p, Gateway(G.Written(Open(s.node.node.session + 1), true, 0)));
  }

  lemma IsHeard(env: R.Env, s: Sys, p: Path, session: U64) returns (p1: Path)
    requires Leads(env, s, p) && Inv(p.at) && Asking(p.at, session, true) && session > p.at.node.node.session && OnlyOpens(p.events)
    ensures Leads(env, s, p1) && Inv(p1.at) && Asking(p1.at, session, true) && OnlyOpens(p1.events)
    ensures p1.at.node.node == R.Node(session, 0, true, map[]) && p1.at.node.runs == p.at.node.runs
    ensures OpenAckFrame(session, session, 0) in p1.at.node.out
  {
    OpensSnoc(p.events, ToNode(Open(session)));
    OpenHeard(env, p.at, session);
    p1 := Go(env, s, p, ToNode(Open(session)));
  }

  lemma IsAnswered(env: R.Env, s: Sys, p: Path, session: U64) returns (p1: Path)
    requires Leads(env, s, p) && Inv(p.at) && Asking(p.at, session, true) && OnlyOpens(p.events)
    requires p.at.node.node == R.Node(session, 0, true, map[]) && OpenAckFrame(session, session, 0) in p.at.node.out
    ensures Leads(env, s, p1) && Inv(p1.at) && Connected(p1.at) && p1.at.node == p.at.node && p1.at.gw.subs == []
    ensures OnlyOpens(p1.events)
  {
    OpensSnoc(p.events, Gateway(G.Got(OpenAckFrame(session, session, 0), 0)));
    AnswerHeard(env, p.at, session);
    p1 := Go(env, s, p, Gateway(G.Got(OpenAckFrame(session, session, 0), 0)));
  }

  /** From every starting point whose node has not used up the session numbers, the two
      ends can get connected. */
  lemma Connects(env: R.Env, s: Sys) returns (p: Path)
    requires Init(s) && s.node.node.session < U64_MAX
    ensures Leads(env, s, p) && Inv(p.at) && Connected(p.at) && p.at.node.runs == s.node.runs && p.at.gw.subs == []
    ensures OnlyOpens(p.events)
  {
    var session := s.node.node.session + 1;
    p := Asks(env, s);
    p := IsHeard(env, s, p, session);
    p := IsAnswered(env, s, p, session);
  }

  // --------------------------------------------------------------- a command's way

  function Copy(session: U64, kind: Byte, args: Bytes, attempt: nat): T.Send {
    T.Send(SR_COMMAND, session, [0, kind] + args, 0, attempt)
  }

  /** One command in flight, number 0, as the entry says; the node has nothing of it. */
  ghost predicate Flying(s: Sys, e: T.Pending) {
    var t := s.gw.t;
    && t.phase.Ready? && t.next == 1 && t.base == 0 && t.entries == map[0 := e] && !e.received && |e.args| <= 53
    && s.node.node == R.Node(t.session, 0, true, map[])
    && Command(t.session, 0, e.kind, e.args) in s.gw.subs
  }

  ghost predicate Issued(s: Sys, e: T.Pending, attempt: nat) {
    Copy(s.gw.t.session, e.kind, e.args, attempt) in s.gw.issued
  }

  lemma Offers(env: R.Env, s: Sys, kind: Byte, args: Bytes)
    requires T.Valid(s.gw.t) && Connected(s) && |args| <= 53
    ensures var s1 := Next(env, s, Gateway(G.Offer(kind, args, 0))); var e := T.Pending(kind, args, 0, 0, 0, true, false);
            Flying(s1, e) && Issued(s1, e, 0) && s1.node == s.node
  {
    TT.SubmitFiles(s.gw.t, kind, args, 0);
    var s1 := Next(env, s, Gateway(G.Offer(kind, args, 0)));
    assert s1.gw.subs[|s.gw.subs|] == Command(s.gw.t.session, 0, kind, args);
    assert s1.gw.issued[|s.gw.issued|] == Copy(s.gw.t.session, kind, args, 0);
  }

  lemma Writes(env: R.Env, s: Sys, e: T.Pending, now: int)
    requires T.Valid(s.gw.t) && Flying(s, e) && e.pending && now - e.queuedAt < 4000
    ensures var s1 := Next(env, s, Gateway(G.Written(Copy(s.gw.t.session, e.kind, e.args, e.sends), true, now)));
            Flying(s1, TT.Sent(e, now)) && s1.node == s.node && s1.gw.issued == s.gw.issued && s1.gw.t.session == s.gw.t.session
  {
    TT.WriteCounted(s.gw.t, 0, now);
  }

  lemma Ticks(env: R.Env, s: Sys, e: T.Pending, now: int)
    requires T.Valid(s.gw.t) && Flying(s, e) && TT.Alive(e, now) && TT.Overdue(e, now)
    ensures var s1 := Next(env, s, Gateway(G.Clock(now)));
            Flying(s1, e.(pending := true)) && Issued(s1, e, e.sends) && s1.node == s.node
  {
    var i := TickOne(s.gw.t, e, now);
    var s1 := Next(env, s, Gateway(G.Clock(now)));
    assert s1.gw.issued[|s.gw.issued| + i] == Copy(s.gw.t.session, e.kind, e.args, e.sends);
  }

  lemma TickOne(t: T.Tracker, e: T.Pending, now: int) returns (i: nat)
    requires T.Valid(t) && t.phase.Ready? && t.entries == map[0 := e] && TT.Alive(e, now) && TT.Overdue(e, now)
    ensures var turn := T.Tick(t, now);
            && i < |turn.send| && turn.send[i] == Copy(t.session, e.kind, e.args, e.sends)
            && turn.t == t.(entries := map[0 := e.(pending := true)])
  {
    var turn := T.Tick(t, now);
    TT.TickRetransmits(t, now);
    i :| 0 <= i < |turn.send| && turn.send[i].num == 0;
    assert TT.IsRepeat(t, now, turn.send[i]);
    OneEntry(t, turn.t, e, now);
  }

  lemma OneEntry(t: T.Tracker, t1: T.Tracker, e: T.Pending, now: int)
    requires t.entries == map[0 := e] && TT.Rewaits(t, now, t1) && TT.Overdue(e, now)
    ensures t1 == t.(entries := map[0 := e.(pending := true)])
  {
    assert TT.NowWaits(now, t.entries[0], t1.entries[0]);
    assert t1.entries == map[0 := e.(pending := true)];
  }

  /** What the hook's next reply makes the result. */
  function Outcome(env: R.Env, r: R.Run): Bytes {
    if 1 <= |env.reply(r.runs)| <= 53 then env.reply(r.runs) else [2]
  }

  /** The command is executed as it arrives and its result sent. */
  lemma Runs(env: R.Env, s: Sys, e: T.Pending, attempt: nat)
    requires T.Valid(s.gw.t) && Flying(s, e) && Issued(s, e, attempt)
    ensures var s1 := Next(env, s, ToNode(Copy(s.gw.t.session, e.kind, e.args, attempt)));
            var c, b := Command(s.gw.t.session, 0, e.kind, e.args), Outcome(env, s.node);
            && s1.gw == s.gw && s1.node.ran == s.node.ran + [R.Execution(c, b)]
            && ResultFrame(c.session, 0, e.kind, b) in s1.node.out
  {
    var c := Command(s.gw.t.session, 0, e.kind, e.args);
    SameFrame(c, attempt);
    NodeRuns(env, s.node, c);
  }

  lemma SameFrame(c: Command, attempt: nat)
    requires c.num == 0
    ensures T.Wire(Copy(c.session, c.kind, c.args, attempt)) == CommandFrame(c)
  {
    assert U64Bytes(c.session) + ([0, c.kind] + c.args) == U64Bytes(c.session) + [0, c.kind] + c.args;
  }

  lemma NodeRuns(env: R.Env, r: R.Run, c: Command)
    requires r.node == R.Node(c.session, 0, true, map[]) && c.num == 0 && |c.args| <= 53
    ensures var r1 := R.OnFrame(env, r, CommandFrame(c));
            && r1.ran == r.ran + [R.Execution(c, Outcome(env, r))]
            && ResultFrame(c.session, 0, c.kind, Outcome(env, r)) in r1.out
  {
    assert R.Scan(env, r).node == r.node;
    N.NewCommandAnswered(env, r, c);
    var r0, r1 := N.Confirmed(R.Scan(env, r), env.Read(r.readings), c), R.OnFrame(env, r, CommandFrame(c));
    N.MissingIsUnique(r0.node.live, 0, 1);
    assert N.RanAs(env, r0, r1, 0);
    assert r1.out[|r0.out|] == ResultFrame(c.session, 0, c.kind, Outcome(env, r));
  }

  lemma Reports(env: R.Env, s: Sys, e: T.Pending, b: Bytes)
    requires T.Valid(s.gw.t) && s.gw.t.phase.Ready? && s.gw.t.entries == map[0 := e] && e.sends > 0 && TT.GoodResult(e.kind, b)
    requires ResultFrame(s.gw.t.session, 0, e.kind, b) in s.node.out
    ensures var s1 := Next(env, s, Gateway(G.Got(ResultFrame(s.gw.t.session, 0, e.kind, b), 500)));
            && s1.node == s.node && s1.gw.subs == s.gw.subs
            && G.Report(s.gw.t.session, T.Completion(0, e.kind, b, T.NoError)) in s1.gw.reports
  {
    TT.FirstResult(s.gw.t, 0, b, 500);
    var s1 := Next(env, s, Gateway(G.Got(ResultFrame(s.gw.t.session, 0, e.kind, b), 500)));
    assert s1.gw.reports[|s.gw.reports|] == G.Report(s.gw.t.session, T.Completion(0, e.kind, b, T.NoError));
  }

  // ------------------------------------------------------------- all the way

  /** The command was executed at the node and reported by the gateway, with the hook's
      bytes. */
  ghost predicate Succeeded(s: Sys, c: Command, b: Bytes) {
    && c in s.gw.subs && R.Execution(c, b) in s.node.ran
    && G.Report(c.session, T.Completion(c.num, c.kind, b, T.NoError)) in s.gw.reports
  }

  /** The only copies of the command that ever reach the node are those of one attempt. */
  predicate OnlyAttempt(events: seq<Event>, attempt: nat) {
    forall ev :: ev in events && ev.ToNode? && ev.send.kind == SR_COMMAND ==> ev.send.attempt == attempt
  }

  predicate OnlyOpens(events: seq<Event>) { forall ev :: ev in events && ev.ToNode? ==> ev.send.kind == SR_OPEN }

  lemma OpensSnoc(events: seq<Event>, ev: Event)
    requires OnlyOpens(events) && (ev.ToNode? ==> ev.send.kind == SR_OPEN)
    ensures OnlyOpens(events + [ev])
  {}

  lemma AttemptSnoc(events: seq<Event>, ev: Event, attempt: nat)
    requires OnlyAttempt(events, attempt) && (ev.ToNode? ==> ev.send.attempt == attempt)
    ensures OnlyAttempt(events + [ev], attempt)
  {}

  lemma Submits(env: R.Env, s: Sys, p: Path, kind: Byte, args: Bytes) returns (p1: Path)
    requires Leads(env, s, p) && Inv(p.at) && Connected(p.at) && |args| <= 53 && OnlyOpens(p.events)
    ensures Leads(env, s, p1) && Inv(p1.at) && p1.at.node == p.at.node
    ensures var e := T.Pending(kind, args, 0, 0, 0, true, false); Flying(p1.at, e) && Issued(p1.at, e, 0)
    ensures OnlyOpens(p1.events)
  {
    OpensSnoc(p.events, Gateway(G.Offer(kind, args, 0)));
    Offers(env, p.at, kind, args);
    p1 := Go(env, s, p, Gateway(G.Offer(kind, args, 0)));
  }

  lemma IsWritten(env: R.Env, s: Sys, p: Path, e: T.Pending, now: int) returns (p1: Path)
    requires Leads(env, s, p) && Inv(p.at) && Flying(p.at, e) && e.pending && now - e.queuedAt < 4000
    requires OnlyOpens(p.events)
    ensures Leads(env, s, p1) && Inv(p1.at) && p1.at.node == p.at.node && Flying(p1.at, TT.Sent(e, now))
    ensures p1.at.gw.issued == p.at.gw.issued && p1.at.gw.t.session == p.at.gw.t.session
    ensures OnlyOpens(p1.events)
  {
    OpensSnoc(p.events, Gateway(G.Written(Copy(p.at.gw.t.session, e.kind, e.args, e.sends), true, now)));
    Writes(env, p.at, e, now);
    p1 := Go(env, s, p, Gateway(G.Written(Copy(p.at.gw.t.session, e.kind, e.args, e.sends), true, now)));
  }

  lemma IsRepeated(env: R.Env, s: Sys, p: Path, e: T.Pending, now: int) returns (p1: Path)
    requires Leads(env, s, p) && Inv(p.at) && Flying(p.at, e) && TT.Alive(e, now) && TT.Overdue(e, now)
    requires OnlyOpens(p.events)
    ensures Leads(env, s, p1) && Inv(p1.at) && p1.at.node == p.at.node
    ensures Flying(p1.at, e.(pending := true)) && Issued(p1.at, e, e.sends)
    ensures OnlyOpens(p1.events)
  {
    OpensSnoc(p.events, Gateway(G.Clock(now)));
    Ticks(env, p.at, e, now);
    p1 := Go(env, s, p, Gateway(G.Clock(now)));
  }

  lemma IsExecuted(env: R.Env, s: Sys, p: Path, e: T.Pending, attempt: nat) returns (p1: Path)
    requires Leads(env, s, p) && Inv(p.at) && Flying(p.at, e) && Issued(p.at, e, attempt) && OnlyOpens(p.events)
    ensures Leads(env, s, p1) && Inv(p1.at) && p1.at.gw == p.at.gw && OnlyAttempt(p1.events, attempt)
    ensures R.Execution(Command(p.at.gw.t.session, 0, e.kind, e.args), Outcome(env, p.at.node)) in p1.at.node.ran
    ensures ResultFrame(p.at.gw.t.session, 0, e.kind, Outcome(env, p.at.node)) in p1.at.node.out
  {
    AttemptSnoc(p.events, ToNode(Copy(p.at.gw.t.session, e.kind, e.args, attempt)), attempt);
    Runs(env, p.at, e, attempt);
    p1 := Go(env, s, p, ToNode(Copy(p.at.gw.t.session, e.kind, e.args, attempt)));
    var ran := p1.at.node.ran;
    assert ran[|ran| - 1] == R.Execution(Command(p.at.gw.t.session, 0, e.kind, e.args), Outcome(env, p.at.node));
  }

  lemma IsReported(env: R.Env, s: Sys, p: Path, e: T.Pending, b: Bytes, attempt: nat) returns (p1: Path)
    requires OnlyAttempt(p.events, attempt)
    requires Leads(env, s, p) && Inv(p.at) && p.at.gw.t.phase.Ready? && p.at.gw.t.entries == map[0 := e]
    requires e.sends > 0 && TT.GoodResult(e.kind, b) && Command(p.at.gw.t.session, 0, e.kind, e.args) in p.at.gw.subs
    requires ResultFrame(p.at.gw.t.session, 0, e.kind, b) in p.at.node.out
    requires R.Execution(Command(p.at.gw.t.session, 0, e.kind, e.args), b) in p.at.node.ran
    ensures Leads(env, s, p1) && Succeeded(p1.at, Command(p.at.gw.t.session, 0, e.kind, e.args), b)
    ensures OnlyAttempt(p1.events, attempt)
  {
    AttemptSnoc(p.events, Gateway(G.Got(ResultFrame(p.at.gw.t.session, 0, e.kind, b), 500)), attempt);
    Reports(env, p.at, e, b);
    p1 := Go(env, s, p, Gateway(G.Got(ResultFrame(p.at.gw.t.session, 0, e.kind, b), 500)));
  }

  /** From connected ends to the first copy written. */
  lemma FirstCopy(env: R.Env, s: Sys, p: Path, kind: Byte, args: Bytes) returns (p1: Path)
    requires Leads(env, s, p) && Inv(p.at) && Connected(p.at) && |args| <= 53 && OnlyOpens(p.events)
    ensures Leads(env, s, p1) && Inv(p1.at) && p1.at.node == p.at.node && OnlyOpens(p1.events)
    ensures var e := T.Pending(kind, args, 0, 0, 1, false, false); Flying(p1.at, e) && Issued(p1.at, e, 0)
  {
    p1 := Submits(env, s, p, kind, args);
    p1 := IsWritten(env, s, p1, T.Pending(kind, args, 0, 0, 0, true, false), 0);
  }

  /** The first copy is lost; half a second later a second one is written. */
  lemma SecondCopy(env: R.Env, s: Sys, p: Path, kind: Byte, args: Bytes) returns (p1: Path)
    requires Leads(env, s, p) && Inv(p.at) && OnlyOpens(p.events) && Flying(p.at, T.Pending(kind, args, 0, 0, 1, false, false))
    ensures Leads(env, s, p1) && Inv(p1.at) && p1.at.node == p.at.node && OnlyOpens(p1.events)
    ensures var e := T.Pending(kind, args, 0, 500, 2, false, false); Flying(p1.at, e) && Issued(p1.at, e, 1)
  {
    p1 := IsRepeated(env, s, p, T.Pending(kind, args, 0, 0, 1, false, false), 500);
    p1 := IsWritten(env, s, p1, T.Pending(kind, args, 0, 0, 1, true, false), 500);
  }

  /** From delivery of one copy to the report. */
  lemma LastLeg(env: R.Env, s: Sys, p: Path, e: T.Pending, attempt: nat) returns (p1: Path, c: Command)
    requires Leads(env, s, p) && Inv(p.at) && Flying(p.at, e) && Issued(p.at, e, attempt) && OnlyOpens(p.events)
    requires e.sends > 0 && TT.GoodResult(e.kind, Outcome(env, p.at.node))
    ensures Leads(env, s, p1) && OnlyAttempt(p1.events, attempt)
    ensures c.kind == e.kind && c.args == e.args && Succeeded(p1.at, c, Outcome(env, p.at.node))
  {
    c := Command(p.at.gw.t.session, 0, e.kind, e.args);
    p1 := IsExecuted(env, s, p, e, attempt);
    p1 := IsReported(env, s, p1, e, Outcome(env, p.at.node), attempt);
  }

  lemma SucceedsAtOnce(env: R.Env, s: Sys, p: Path, kind: Byte, args: Bytes) returns (p1: Path, c: Command)
    requires Leads(env, s, p) && Inv(p.at) && Connected(p.at) && OnlyOpens(p.events)
    requires |args| <= 53 && TT.GoodResult(kind, Outcome(env, p.at.node))
    ensures Leads(env, s, p1) && OnlyAttempt(p1.events, 0)
    ensures c.kind == kind && c.args == args && Succeeded(p1.at, c, Outcome(env, p.at.node))
  {
    var q := FirstCopy(env, s, p, kind, args);
    p1, c := LastLeg(env, s, q, T.Pending(kind, args, 0, 0, 1, false, false), 0);
  }

  lemma SucceedsAfterLoss(env: R.Env, s: Sys, p: Path, kind: Byte, args: Bytes) returns (p1: Path, c: Command)
    requires Leads(env, s, p) && Inv(p.at) && Connected(p.at) && OnlyOpens(p.events)
    requires |args| <= 53 && TT.GoodResult(kind, Outcome(env, p.at.node))
    ensures Leads(env, s, p1) && OnlyAttempt(p1.events, 1)
    ensures c.kind == kind && c.args == args && Succeeded(p1.at, c, Outcome(env, p.at.node))
  {
    var q := FirstCopy(env, s, p, kind, args);
    q := SecondCopy(env, s, q, kind, args);
    p1, c := LastLeg(env, s, q, T.Pending(kind, args, 0, 500, 2, false, false), 1);
  }

  /** From every starting point with a session number left, and for every command to which
      the hook gives a well-formed reply, there is a run in which it is executed and
      reported as a success with that reply; also one in which the first copy is lost and
      only the retransmission arrives. */
  lemma CommandsSucceed(env: R.Env, s: Sys, kind: Byte, args: Bytes, lost: bool) returns (p: Path, c: Command)
    requires Init(s) && s.node.node.session < U64_MAX && |args| <= 53 && TT.GoodResult(kind, Outcome(env, s.node))
    ensures Leads(env, s, p) && OnlyAttempt(p.events, if lost then 1 else 0)
    ensures c.kind == kind && c.args == args && Succeeded(p.at, c, Outcome(env, s.node))
  {
    p := Connects(env, s);
    if lost {
      p, c := SucceedsAfterLoss(env, s, p, kind, args);
    } else {
      p, c := SucceedsAtOnce(env, s, p, kind, args);
    }
  }

  // ------------------------------------------------------------- when nothing works

  /** A node that has used up the session numbers and is in no live session. */
  ghost predicate Dead(s: Sys) {
    && !s.node.node.active && s.node.node.session == U64_MAX && !s.gw.t.phase.Ready?
    && forall f, x: U64 :: f in s.node.out ==> !Acknowledges(f, x)
  }

  lemma RefusalIsNotAcceptance(asked: U64, high: U64, x: U64)
    ensures !Acknowledges(OpenAckFrame(asked, high, 1), x)
  {
    var f, g := OpenAckFrame(asked, high, 1), OpenAckFrame(x, x, RC_OK);
    assert f.payload[16] == 1 && g.payload[16] == 0;
  }

  /** A node in no session answers nothing but OPENs. */
  lemma InactiveIsSilent(env: R.Env, r: R.Run, f: Frame)
    requires !r.node.active && r.node.session == U64_MAX
    ensures var r1 := R.OnFrame(env, r, f);
            && !r1.node.active && r1.node.session == U64_MAX
            && (r1.out == r.out || exists s: U64 :: r1.out == r.out + [OpenAckFrame(s, U64_MAX, 1)])
  {
    if f.kind == SR_OPEN && |f.payload| == 8 { N.OpenAnswered(env, r, f.payload); }
  }

  lemma NodeStaysDead(env: R.Env, s: Sys, x: T.Send)
    requires Inv(s) && Dead(s) && x in s.gw.issued
    ensures Dead(Next(env, s, ToNode(x)))
  {
    InactiveIsSilent(env, s.node, T.Wire(x));
    var r1 := R.OnFrame(env, s.node, T.Wire(x));
    if r1.out != s.node.out {
      var a: U64 :| r1.out == s.node.out + [OpenAckFrame(a, U64_MAX, 1)];
      forall f, y: U64 | f in r1.out ensures !Acknowledges(f, y) {
        if f !in s.node.out { RefusalIsNotAcceptance(a, U64_MAX, y); }
      }
    }
  }

  lemma GatewayStaysOut(env: R.Env, s: Sys, input: G.Input)
    requires Inv(s) && Dead(s) && Enabled(env, s, Gateway(input))
    ensures Dead(Next(env, s, Gateway(input)))
  {
    if G.React(s.gw.t, input).t.phase.Ready? {
      ReadyOnlyBy(s.gw.t, input);
      OkAckShape(input.frame, s.gw.t.session);
      assert false;
    }
  }

  lemma StaysDead(env: R.Env, s: Sys, ev: Event)
    requires Inv(s) && Dead(s)
    ensures Dead(Next(env, s, ev))
  {
    if Enabled(env, s, ev) {
      match ev
      case Gateway(input) => GatewayStaysOut(env, s, input);
      case ToNode(x) => NodeStaysDead(env, s, x);
      case NodeTick(order) =>
    }
  }

  lemma {:induction false} DeadForever(env: R.Env, s: Sys, events: seq<Event>)
    requires Inv(s) && Dead(s)
    ensures Dead(After(env, s, events))
    decreases |events|
  {
    if events != [] {
      NextInv(env, s, events[0]);
      StaysDead(env, s, events[0]);
      DeadForever(env, Next(env, s, events[0]), events[1..]);
    }
  }

  ghost predicate CanConnect(env: R.Env, s: Sys)
    requires Inv(s)
  {
    exists events :: Together(After(env, s, events))
  }

  ghost predicate Together(s: Sys) {
    s.gw.t.phase.Ready? && s.node.node.active && s.node.node.session == s.gw.t.session
  }

  /** Gateway and node can get ready in one session if and only if the node has a session
      number left. */
  lemma ConnectsUnlessExhausted(env: R.Env, s: Sys)
    requires Init(s)
    ensures Inv(s) && (CanConnect(env, s) <==> s.node.node.session < U64_MAX)
  {
    InitInv(s);
    if s.node.node.session < U64_MAX {
      var p := Connects(env, s);
      assert Together(After(env, s, p.events));
    } else {
      forall events ensures !Together(After(env, s, events)) { DeadForever(env, s, events); }
    }
  }
}
