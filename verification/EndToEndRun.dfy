/** The joint model is not empty: a message whose command is executed, reported and
    answered with success. */
module EndToEndRun {
  import opened Protocol
  import opened Mailbox
  import A = Accounting
  import AW = AccountingWitness
  import T = Tracker
  import TT = TrackerTheorems
  import G = Sender
  import R = Receiver
  import S = SrSystem
  import ST = SrTheorems
  import SR = SrRuns
  import opened EndToEnd

  /** A run, and the state it has come to. */
  ghost predicate Comes(env: R.Env, states: seq<Joint>, j: Joint) {
    Run(env, states) && states[|states| - 1] == j && S.Inv(j.sys)
  }

  lemma Extend(env: R.Env, states: seq<Joint>, k: Joint)
    requires Run(env, states) && Linked(env, states[|states| - 1], k)
    ensures Run(env, states + [k])
  {
    var more := states + [k];
    forall i | 0 < i < |more| ensures Linked(env, more[i - 1], more[i]) {
      if i < |states| { assert Linked(env, states[i - 1], states[i]); }
    }
  }

  lemma Go(env: R.Env, states: seq<Joint>, j: Joint, k: Joint) returns (more: seq<Joint>)
    requires Comes(env, states, j) && Step(env, j, k) && S.Inv(k.sys)
    ensures Comes(env, more, k)
  {
    assert Linked(env, j, k);
    Extend(env, states, k);
    more := states + [k];
  }

  // ------------------------------------------------------------------- the gates

  /** One message admitted and translated to id 1, which waits to go out; the tracker is `t`. */
  function Queued(t: T.Tracker): A.Gate {
    A.Start().(tickets := 1, admitted := 1, nextId := 2, pending := map[1 := 0], commands := [1], tracker := t)
  }

  /** It has gone out as number 0. */
  function Out(t: T.Tracker): A.Gate { Queued(t).(commands := [], requests := map[0 := 1]) }

  /** Its command has ended. */
  function Ended(t: T.Tracker): A.Gate { Queued(t).(commands := [], todo := [1]) }

  // ------------------------------------------------------------------ getting in

  function Fresh(s: S.Sys): Joint { Joint(A.Start(), s, map[], map[], map[], map[]) }

  function Made(s: S.Sys, kind: Byte, args: Bytes, gate: A.Gate): Joint {
    Joint(gate, s, map[1 := Asked(0, kind, args)], map[], map[], map[])
  }

  lemma Knocks(env: R.Env, s: S.Sys)
    requires T.Shape(s.gw.t)
    ensures Step(env, Fresh(s), Fresh(s).(gate := AW.Knocking()))
  {
    MayArrive();
    var j, k := Fresh(s), Fresh(s).(gate := AW.Knocking());
    assert Elsewhere(j, k);
  }

  lemma MayArrive()
    ensures Moves(A.Start(), AW.Knocking())
  {
    assert multiset{} + multiset{0} == multiset{0};
    assert A.Arrive(A.Start(), AW.Knocking());
  }

  lemma Enters(env: R.Env, s: S.Sys)
    requires T.Shape(s.gw.t)
    ensures Step(env, Fresh(s).(gate := AW.Knocking()), Fresh(s).(gate := AW.Waiting()))
  {
    assert multiset{0} - multiset{0} == multiset{};
    assert A.Enter(AW.Knocking(), AW.Waiting(), 0);
    assert Moves(AW.Knocking(), AW.Waiting());
  }

  function Read(): A.Gate { A.Start().(tickets := 1, admitted := 1, work := A.Translating(0)) }

  function Submitting(): A.Gate {
    A.Start().(tickets := 1, admitted := 1, nextId := 2, pending := map[1 := 0], work := A.Submitting(1))
  }

  lemma IsRead(env: R.Env, s: S.Sys)
    requires T.Shape(s.gw.t)
    ensures Step(env, Fresh(s).(gate := AW.Waiting()), Fresh(s).(gate := Read()))
  {
    assert A.Begin(AW.Waiting(), Read());
    assert Moves(AW.Waiting(), Read());
  }

  lemma IsAccepted(env: R.Env, s: S.Sys, kind: Byte, args: Bytes)
    requires T.Shape(s.gw.t)
    ensures Step(env, Fresh(s).(gate := Read()), Made(s, kind, args, Submitting()))
    ensures Step(env, Made(s, kind, args, Submitting()), Made(s, kind, args, Queued(T.Initial())))
  {
    var j, k, l := Fresh(s).(gate := Read()), Made(s, kind, args, Submitting()), Made(s, kind, args, Queued(T.Initial()));
    assert Accept(j, k, kind, args);
    assert Business(j, k);
    assert Enqueue(k, l);
    assert Business(k, l);
  }

  lemma GetsIn(env: R.Env, s: S.Sys, kind: Byte, args: Bytes) returns (states: seq<Joint>)
    requires S.Init(s) && S.Inv(s)
    ensures Comes(env, states, Made(s, kind, args, Queued(T.Initial())))
  {
    states := [Fresh(s)];
    Knocks(env, s);
    states := Go(env, states, Fresh(s), Fresh(s).(gate := AW.Knocking()));
    Enters(env, s);
    states := Go(env, states, Fresh(s).(gate := AW.Knocking()), Fresh(s).(gate := AW.Waiting()));
    states := Translates(env, states, s, kind, args);
  }

  lemma Translates(env: R.Env, states: seq<Joint>, s: S.Sys, kind: Byte, args: Bytes) returns (more: seq<Joint>)
    requires Comes(env, states, Fresh(s).(gate := AW.Waiting()))
    ensures Comes(env, more, Made(s, kind, args, Queued(T.Initial())))
  {
    IsRead(env, s);
    more := Go(env, states, Fresh(s).(gate := AW.Waiting()), Fresh(s).(gate := Read()));
    IsAccepted(env, s, kind, args);
    more := Go(env, more, Fresh(s).(gate := Read()), Made(s, kind, args, Submitting()));
    more := Go(env, more, Made(s, kind, args, Submitting()), Made(s, kind, args, Queued(T.Initial())));
  }

  // ---------------------------------------------------------- protocol in between

  /** The reactor feeds the tracker an input that ends nothing. */
  lemma QuietInput(env: R.Env, j: Joint, input: G.Input)
    requires S.Inv(j.sys) && j.gate.stage == 0 && j.gate.todo == [] && j.gate.tracker == j.sys.gw.t && !input.Offer?
    requires S.Enabled(env, j.sys, S.Gateway(input)) && G.React(j.sys.gw.t, input).finished == []
    ensures Step(env, j, j.(gate := j.gate.(tracker := G.React(j.sys.gw.t, input).t), sys := S.Next(env, j.sys, S.Gateway(input))))
  {
    var k := j.(gate := j.gate.(tracker := G.React(j.sys.gw.t, input).t), sys := S.Next(env, j.sys, S.Gateway(input)));
    QuietDrive(j.gate, k.gate, input);
    assert React(env, j, k, input);
    assert Reactor(env, j, k);
  }

  lemma QuietDrive(g: A.Gate, h: A.Gate, input: G.Input)
    requires T.Shape(g.tracker) && g.stage == 0 && g.todo == [] && !input.Offer? && G.React(g.tracker, input).finished == []
    requires h == g.(tracker := G.React(g.tracker, input).t)
    ensures A.Drive(g, h, input)
  {}

  lemma Fed(env: R.Env, states: seq<Joint>, j: Joint, input: G.Input) returns (more: seq<Joint>, k: Joint)
    requires Comes(env, states, j)
    requires j.gate.stage == 0 && j.gate.todo == [] && j.gate.tracker == j.sys.gw.t && !input.Offer?
    requires S.Enabled(env, j.sys, S.Gateway(input)) && G.React(j.sys.gw.t, input).finished == []
    ensures Comes(env, more, k) && k.sys == S.Next(env, j.sys, S.Gateway(input))
    ensures k == j.(gate := j.gate.(tracker := k.sys.gw.t), sys := k.sys)
  {
    QuietInput(env, j, input);
    S.NextInv(env, j.sys, S.Gateway(input));
    k := j.(gate := j.gate.(tracker := G.React(j.sys.gw.t, input).t), sys := S.Next(env, j.sys, S.Gateway(input)));
    more := Go(env, states, j, k);
  }

  lemma Heard(env: R.Env, states: seq<Joint>, j: Joint, x: T.Send) returns (more: seq<Joint>, k: Joint)
    requires Comes(env, states, j)
    ensures Comes(env, more, k) && k == j.(sys := S.Next(env, j.sys, S.ToNode(x)))
  {
    S.NextInv(env, j.sys, S.ToNode(x));
    k := j.(sys := S.Next(env, j.sys, S.ToNode(x)));
    assert NodeActs(env, j, k, S.ToNode(x));
    more := Go(env, states, j, k);
  }

  lemma {:induction false} NothingToAbort(failed: int, reason: T.Error, from: nat)
    requires from <= 256
    ensures T.Aborted(map[], failed, reason, from) == []
    decreases 256 - from
  {
    if from < 256 { NothingToAbort(failed, reason, from + 1); }
  }

  lemma Asks(env: R.Env, s: S.Sys, states: seq<Joint>, j: Joint) returns (more: seq<Joint>, k: Joint)
    requires S.Init(s) && s.node.node.session < U64_MAX && Comes(env, states, j)
    requires j.sys == s && j.gate == Queued(s.gw.t)
    ensures Comes(env, more, k) && k == j.(gate := Queued(k.sys.gw.t), sys := k.sys)
    ensures SR.Asking(k.sys, s.node.node.session + 1, true) && k.sys.node == s.node
  {
    var session := s.node.node.session + 1;
    NothingToAbort(-1, T.SessionAborted, 0);
    SR.OpenIssued(env, s);
    more, k := Fed(env, states, j, G.Restart(session, 0));
    SR.OpenWritten(env, k.sys, session);
    more, k := Fed(env, more, k, G.Written(SR.Open(session), true, 0));
  }

  lemma Connects(env: R.Env, states: seq<Joint>, j: Joint, session: U64) returns (more: seq<Joint>, k: Joint)
    requires Comes(env, states, j) && j.gate == Queued(j.sys.gw.t)
    requires SR.Asking(j.sys, session, true) && session > j.sys.node.node.session
    ensures Comes(env, more, k) && k == j.(gate := Queued(k.sys.gw.t), sys := k.sys)
    ensures SR.Connected(k.sys) && k.sys.node.runs == j.sys.node.runs
  {
    SR.OpenHeard(env, j.sys, session);
    more, k := Heard(env, states, j, SR.Open(session));
    more, k := IsWelcomed(env, more, k, session);
  }

  lemma QuietAnswer(env: R.Env, s: S.Sys, session: U64)
    requires S.Inv(s) && SR.Asking(s, session, true) && OpenAckFrame(session, session, 0) in s.node.out
    ensures S.Enabled(env, s, S.Gateway(G.Got(OpenAckFrame(session, session, 0), 0)))
    ensures G.React(s.gw.t, G.Got(OpenAckFrame(session, session, 0), 0)).finished == []
  {
    TT.OpenAccepted(s.gw.t, 0);
  }

  lemma IsWelcomed(env: R.Env, states: seq<Joint>, j: Joint, session: U64) returns (more: seq<Joint>, k: Joint)
    requires Comes(env, states, j) && j.gate == Queued(j.sys.gw.t) && SR.Asking(j.sys, session, true)
    requires j.sys.node.node == R.Node(session, 0, true, map[]) && OpenAckFrame(session, session, 0) in j.sys.node.out
    ensures Comes(env, more, k) && k == j.(gate := Queued(k.sys.gw.t), sys := k.sys)
    ensures SR.Connected(k.sys) && k.sys.node == j.sys.node
  {
    SR.AnswerHeard(env, j.sys, session);
    QuietAnswer(env, j.sys, session);
    more, k := Fed(env, states, j, G.Got(OpenAckFrame(session, session, 0), 0));
  }

  // --------------------------------------------------------------- out and back

  function Sent(kind: Byte, args: Bytes): T.Pending { T.Pending(kind, args, 0, 0, 1, false, false) }

  function Filed(s: S.Sys, kind: Byte, args: Bytes, gate: A.Gate, c: Command): Joint {
    Joint(gate, s, map[1 := Asked(0, kind, args)], map[1 := c], map[], map[])
  }

  lemma MayGoOut(env: R.Env, s: S.Sys, kind: Byte, args: Bytes)
    requires S.Inv(s) && SR.Connected(s) && |args| <= 53
    ensures var s1 := S.Next(env, s, S.Gateway(G.Offer(kind, args, 0)));
            Step(env, Made(s, kind, args, Queued(s.gw.t)),
                 Filed(s1, kind, args, Out(s1.gw.t), Command(s.gw.t.session, 0, kind, args)))
  {
    var s1 := S.Next(env, s, S.Gateway(G.Offer(kind, args, 0)));
    var j, k := Made(s, kind, args, Queued(s.gw.t)), Filed(s1, kind, args, Out(s1.gw.t), Command(s.gw.t.session, 0, kind, args));
    MayPullIn(s.gw.t, kind, args);
    assert s1.gw.t == T.Submit(s.gw.t, kind, args, 0).t;
    assert GoOut(env, j, k, 0);
    assert Reactor(env, j, k);
  }

  lemma MayPullIn(t: T.Tracker, kind: Byte, args: Bytes)
    requires T.Valid(t) && t.phase.Ready? && t.next == 0 && t.base == 0 && t.entries == map[] && |args| <= 53
    ensures A.PullIn(Queued(t), Out(T.Submit(t, kind, args, 0).t), kind, args, 0)
  {
    assert [1][1..] == [];
    assert A.Emplace(map[], 0, 1) == map[0 := 1];
  }

  lemma GoesOut(env: R.Env, states: seq<Joint>, s: S.Sys, kind: Byte, args: Bytes) returns (more: seq<Joint>, k: Joint)
    requires Comes(env, states, Made(s, kind, args, Queued(s.gw.t))) && SR.Connected(s) && |args| <= 53
    ensures Comes(env, more, k) && SR.Flying(k.sys, Sent(kind, args)) && SR.Issued(k.sys, Sent(kind, args), 0)
    ensures k == Filed(k.sys, kind, args, Out(k.sys.gw.t), Command(k.sys.gw.t.session, 0, kind, args)) && k.sys.node == s.node
  {
    var s1 := S.Next(env, s, S.Gateway(G.Offer(kind, args, 0)));
    var c := Command(s.gw.t.session, 0, kind, args);
    S.NextInv(env, s, S.Gateway(G.Offer(kind, args, 0)));
    SR.Offers(env, s, kind, args);
    MayGoOut(env, s, kind, args);
    more := Go(env, states, Made(s, kind, args, Queued(s.gw.t)), Filed(s1, kind, args, Out(s1.gw.t), c));
    var e := T.Pending(kind, args, 0, 0, 0, true, false);
    more, k := WritesIt(env, more, Filed(s1, kind, args, Out(s1.gw.t), c), e);
  }

  lemma WritesIt(env: R.Env, states: seq<Joint>, j: Joint, e: T.Pending) returns (more: seq<Joint>, k: Joint)
    requires Comes(env, states, j) && SR.Flying(j.sys, e) && e == T.Pending(e.kind, e.args, 0, 0, 0, true, false)
    requires SR.Issued(j.sys, e, 0) && j.gate == Out(j.sys.gw.t)
    ensures Comes(env, more, k) && SR.Flying(k.sys, Sent(e.kind, e.args)) && SR.Issued(k.sys, Sent(e.kind, e.args), 0)
    ensures k == j.(gate := Out(k.sys.gw.t), sys := k.sys) && k.sys.node == j.sys.node
    ensures k.sys.gw.t.session == j.sys.gw.t.session
  {
    SR.Writes(env, j.sys, e, 0);
    TT.WriteCounted(j.sys.gw.t, 0, 0);
    more, k := Fed(env, states, j, G.Written(SR.Copy(j.sys.gw.t.session, e.kind, e.args, 0), true, 0));
  }

  lemma IsExecuted(env: R.Env, states: seq<Joint>, j: Joint, kind: Byte, args: Bytes) returns (more: seq<Joint>, k: Joint)
    requires Comes(env, states, j) && SR.Flying(j.sys, Sent(kind, args)) && SR.Issued(j.sys, Sent(kind, args), 0)
    ensures Comes(env, more, k) && k == j.(sys := k.sys) && k.sys.gw == j.sys.gw
    ensures ResultFrame(j.sys.gw.t.session, 0, kind, SR.Outcome(env, j.sys.node)) in k.sys.node.out
  {
    SR.Runs(env, j.sys, Sent(kind, args), 0);
    more, k := Heard(env, states, j, SR.Copy(j.sys.gw.t.session, kind, args, 0));
  }

  // --------------------------------------------------------------- the answer

  function Done(session: U64, kind: Byte, b: Bytes): G.Report { G.Report(session, T.Completion(0, kind, b, T.NoError)) }

  lemma MayEnd(g: A.Gate, h: A.Gate, input: G.Input, c: T.Completion)
    requires T.Shape(g.tracker) && g == Out(g.tracker) && !input.Offer? && c.num == 0
    requires G.React(g.tracker, input).finished == [c] && h == Ended(G.React(g.tracker, input).t)
    ensures A.Drive(g, h, input)
  {
    assert [c][1..] == [];
    assert map[0 := 1] - {0 as Byte} == map[];
    assert A.Remaining(map[0 := 1], [c]) == map[];
    assert A.Ended(map[0 := 1], [c]) == [1];
  }

  /** All books but the answer are closed. */
  function Completed(j: Joint, s: S.Sys, gate: A.Gate, r: G.Report): Joint {
    j.(gate := gate, sys := s, outcome := map[1 := Reported(r)])
  }

  /** The result comes in and becomes the completion of id 1. */
  lemma MayReport(env: R.Env, j: Joint, kind: Byte, b: Bytes)
    requires S.Inv(j.sys) && j.gate == Out(j.sys.gw.t) && j.outcome == map[] && j.sys.gw.t.phase.Ready?
    requires 0 in j.sys.gw.t.entries && j.sys.gw.t.entries[0].kind == kind && j.sys.gw.t.entries[0].sends > 0
    requires TT.GoodResult(kind, b) && ResultFrame(j.sys.gw.t.session, 0, kind, b) in j.sys.node.out
    ensures var s1 := S.Next(env, j.sys, S.Gateway(G.Got(ResultFrame(j.sys.gw.t.session, 0, kind, b), 500)));
            Step(env, j, Completed(j, s1, Ended(s1.gw.t), Done(j.sys.gw.t.session, kind, b)))
  {
    var input := G.Got(ResultFrame(j.sys.gw.t.session, 0, kind, b), 500);
    var s1 := S.Next(env, j.sys, S.Gateway(input));
    var k := Completed(j, s1, Ended(s1.gw.t), Done(j.sys.gw.t.session, kind, b));
    EndsOne(j.sys.gw.t, kind, b);
    MayEnd(j.gate, k.gate, input, T.Completion(0, kind, b, T.NoError));
    EndingReact(env, j, k, input, T.Completion(0, kind, b, T.NoError));
  }

  lemma EndsOne(t: T.Tracker, kind: Byte, b: Bytes)
    requires T.Valid(t) && t.phase.Ready? && 0 in t.entries && t.entries[0].kind == kind && t.entries[0].sends > 0
    requires TT.GoodResult(kind, b)
    ensures G.React(t, G.Got(ResultFrame(t.session, 0, kind, b), 500)).finished == [T.Completion(0, kind, b, T.NoError)]
  {
    TT.FirstResult(t, 0, b, 500);
  }

  lemma EndingReact(env: R.Env, j: Joint, k: Joint, input: G.Input, c: T.Completion)
    requires T.Shape(j.sys.gw.t) && j.gate.tracker == j.sys.gw.t && A.Drive(j.gate, k.gate, input)
    requires S.Enabled(env, j.sys, S.Gateway(input)) && k.sys == S.Next(env, j.sys, S.Gateway(input))
    requires G.React(j.gate.tracker, input).finished == [c] && k.gate.todo == [1]
    requires j.outcome == map[] && k.outcome == map[1 := Reported(G.Report(j.gate.tracker.session, c))]
    requires k.asked == j.asked && k.filed == j.filed && k.reply == j.reply
    ensures Step(env, j, k)
  {
    assert CompletionOf(j, k, input, 0, 1);
    assert React(env, j, k, input);
    assert Reactor(env, j, k);
  }

  function Posted(t: T.Tracker): A.Gate { Queued(t).(commands := [], core := Box([A.Finish(1)], false)) }
  function Finishing(t: T.Tracker): A.Gate { Queued(t).(commands := [], work := A.Finishing(1)) }
  function Publishing(t: T.Tracker): A.Gate { Queued(t).(commands := [], pending := map[], work := A.Publishing(0)) }
  function Handed(t: T.Tracker): A.Gate { Queued(t).(commands := [], pending := map[], manage := Box([A.Publish(0)], false)) }
  function Sending(t: T.Tracker): A.Gate { Queued(t).(commands := [], pending := map[], managing := A.Sending(0)) }
  function Published(t: T.Tracker): A.Gate { Sending(t).(managing := A.Sent(0), published := multiset{0}) }

  lemma MayPost(t: T.Tracker)
    ensures Moves(Ended(t), Posted(t)) && Moves(Posted(t), Finishing(t))
  {
    assert [1][1..] == [];
    assert A.PostFinish(Ended(t), Posted(t));
    assert A.Begin(Posted(t), Finishing(t));
  }

  lemma MayErase(t: T.Tracker)
    ensures A.Erase(Finishing(t), Publishing(t))
  {
    assert map[1 := 0] - {1} == map[];
  }

  lemma MayPublish(t: T.Tracker)
    ensures Moves(Publishing(t), Handed(t)) && Moves(Handed(t), Sending(t))
  {
    assert A.PostPublish(Publishing(t), Handed(t));
    assert A.ManageBegin(Handed(t), Sending(t));
  }

  lemma MaySend(t: T.Tracker)
    ensures Moves(Sending(t), Published(t))
  {
    assert multiset{} + multiset{0} == multiset{0};
    assert A.MqttPublish(Sending(t), Published(t));
  }

  /** A step of the gateway's threads that leaves protocol and books alone. */
  lemma Moved(env: R.Env, states: seq<Joint>, j: Joint, h: A.Gate) returns (more: seq<Joint>)
    requires Comes(env, states, j) && Moves(j.gate, h)
    ensures Comes(env, more, j.(gate := h))
  {
    assert Elsewhere(j, j.(gate := h));
    more := Go(env, states, j, j.(gate := h));
  }

  lemma Completes(env: R.Env, states: seq<Joint>, j: Joint) returns (more: seq<Joint>, k: Joint)
    requires Comes(env, states, j) && j.gate == Ended(j.gate.tracker) && 1 in j.outcome
    ensures Comes(env, more, k) && k == j.(gate := Publishing(j.gate.tracker), reply := j.reply[0 := j.outcome[1]])
  {
    var t := j.gate.tracker;
    MayPost(t);
    more := Moved(env, states, j, Posted(t));
    more := Moved(env, more, j.(gate := Posted(t)), Finishing(t));
    MayErase(t);
    k := j.(gate := Publishing(t), reply := j.reply[0 := j.outcome[1]]);
    assert Settle(j.(gate := Finishing(t)), k);
    assert Business(j.(gate := Finishing(t)), k);
    more := Go(env, more, j.(gate := Finishing(t)), k);
  }

  lemma IsPublished(env: R.Env, states: seq<Joint>, j: Joint) returns (more: seq<Joint>, k: Joint)
    requires Comes(env, states, j) && j.gate == Publishing(j.gate.tracker)
    ensures Comes(env, more, k) && k == j.(gate := Published(j.gate.tracker))
  {
    var t := j.gate.tracker;
    MayPublish(t);
    more := Moved(env, states, j, Handed(t));
    more := Moved(env, more, j.(gate := Handed(t)), Sending(t));
    MaySend(t);
    more := Moved(env, more, j.(gate := Sending(t)), Published(t));
    k := j.(gate := Published(t));
  }

  lemma IsAnswered(env: R.Env, states: seq<Joint>, j: Joint, kind: Byte, b: Bytes) returns (more: seq<Joint>, k: Joint)
    requires Comes(env, states, j) && j.gate == Out(j.sys.gw.t) && j.outcome == map[] && j.reply == map[]
    requires j.sys.gw.t.phase.Ready? && 0 in j.sys.gw.t.entries
    requires j.sys.gw.t.entries[0].kind == kind && j.sys.gw.t.entries[0].sends > 0
    requires TT.GoodResult(kind, b) && ResultFrame(j.sys.gw.t.session, 0, kind, b) in j.sys.node.out
    ensures Comes(env, more, k) && k.gate.published == multiset{0}
    ensures k.reply == map[0 := Reported(Done(j.sys.gw.t.session, kind, b))] && k.asked == j.asked
  {
    var ev := S.Gateway(G.Got(ResultFrame(j.sys.gw.t.session, 0, kind, b), 500));
    var s1 := S.Next(env, j.sys, ev);
    S.NextInv(env, j.sys, ev);
    MayReport(env, j, kind, b);
    k := Completed(j, s1, Ended(s1.gw.t), Done(j.sys.gw.t.session, kind, b));
    more := Go(env, states, j, k);
    more, k := Completes(env, more, k);
    more, k := IsPublished(env, more, k);
  }

  /** For every command to which the hook gives a well-formed reply there is a run of threads,
      protocol, channel and node in which a message asking for it is answered over MQTT with
      success and exactly that reply. */
  lemma SuccessIsPossible(env: R.Env, s: S.Sys, kind: Byte, args: Bytes) returns (states: seq<Joint>)
    requires S.Init(s) && s.node.node.session < U64_MAX && |args| <= 53 && TT.GoodResult(kind, SR.Outcome(env, s.node))
    ensures Run(env, states)
    ensures var j := states[|states| - 1];
            && j.gate.published == multiset{0} && j.asked == map[1 := Asked(0, kind, args)] && 0 in j.reply
            && j.reply[0].Reported? && j.reply[0].report.done == T.Completion(0, kind, SR.Outcome(env, s.node), T.NoError)
  {
    S.InitInv(s);
    var j := Made(s, kind, args, Queued(s.gw.t));
    states := GetsIn(env, s, kind, args);
    states, j := Asks(env, s, states, j);
    states, j := Connects(env, states, j, s.node.node.session + 1);
    states, j := OutAndBack(env, states, j.sys, kind, args);
  }

  lemma OutAndBack(env: R.Env, states: seq<Joint>, s: S.Sys, kind: Byte, args: Bytes) returns (more: seq<Joint>, k: Joint)
    requires Comes(env, states, Made(s, kind, args, Queued(s.gw.t))) && SR.Connected(s) && |args| <= 53
    requires TT.GoodResult(kind, SR.Outcome(env, s.node))
    ensures Comes(env, more, k) && k.gate.published == multiset{0} && k.asked == map[1 := Asked(0, kind, args)]
    ensures 0 in k.reply && k.reply[0].Reported?
    ensures k.reply[0].report.done == T.Completion(0, kind, SR.Outcome(env, s.node), T.NoError)
  {
    more, k := GoesOut(env, states, s, kind, args);
    more, k := IsExecuted(env, more, k, kind, args);
    more, k := IsAnswered(env, more, k, kind, SR.Outcome(env, s.node));
  }
}
