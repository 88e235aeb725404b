/** Gateway threads, command protocol and node in one system: what an MQTT client is told
    about its own command. */
module EndToEnd {
  import opened Protocol
  import A = Accounting
  import AI = AccountingInv
  import AM = AccountingMoves
  import AS = AccountingSteps
  import AT = AccountingTheorems
  import T = Tracker
  import G = Sender
  import R = Receiver
  import N = NodeTheorems
  import S = SrSystem
  import ST = SrTheorems

  /** What a message asked for, once translated. */
  datatype Asked = Asked(ticket: nat, kind: Byte, args: Bytes)

  /** What a completion, and then the terminal answer, carries: a report of the tracker, or
      a rejection by the gateway itself. */
  datatype Outcome = Reported(report: G.Report) | Turned

  /** The books: per request id what was asked, the command it went out as and the
      completion posted for it; per ticket the answer. */
  datatype Joint = Joint(gate: A.Gate, sys: S.Sys, asked: map<nat, Asked>, filed: map<nat, Command>,
                         outcome: map<nat, Outcome>, reply: map<nat, Outcome>)

  // ----------------------------------------------------------------------- steps

  predicate SameBooks(j: Joint, k: Joint) {
    k.asked == j.asked && k.filed == j.filed && k.outcome == j.outcome && k.reply == j.reply
  }

  /** A message translates to a command of any kind. */
  predicate Accept(j: Joint, k: Joint, kind: Byte, args: Bytes) {
    && A.Translate(j.gate, k.gate, true)
    && k.asked == j.asked[j.gate.nextId := Asked(j.gate.work.ticket, kind, args)]
    && k.sys == j.sys && k.filed == j.filed && k.outcome == j.outcome && k.reply == j.reply
  }

  /** It does not, or the command queue refuses it: the answer is a rejection. */
  predicate TurnDown(j: Joint, k: Joint, t: nat, stopping: bool) {
    && ((A.Translate(j.gate, k.gate, false) && t == j.gate.work.ticket)
        || (A.Submit(j.gate, k.gate, stopping) && A.Refuses(j.gate, stopping) && k.gate.work == A.Publishing(t)))
    && k.reply == j.reply[t := Turned]
    && k.sys == j.sys && k.asked == j.asked && k.filed == j.filed && k.outcome == j.outcome
  }

  predicate Enqueue(j: Joint, k: Joint) {
    A.Submit(j.gate, k.gate, false) && !A.Refuses(j.gate, false) && k.sys == j.sys && SameBooks(j, k)
  }

  /** A completion is turned into the terminal answer. */
  predicate Settle(j: Joint, k: Joint) {
    && A.Erase(j.gate, k.gate)
    && k.reply == (if j.gate.work.id in j.gate.pending && j.gate.work.id in j.outcome
                   then j.reply[j.gate.pending[j.gate.work.id] := j.outcome[j.gate.work.id]] else j.reply)
    && k.sys == j.sys && k.asked == j.asked && k.filed == j.filed && k.outcome == j.outcome
  }

  /** The reactor submits the command the id stands for. */
  ghost predicate GoOut(env: R.Env, j: Joint, k: Joint, now: int)
    requires T.Shape(j.sys.gw.t)
  {
    && j.gate.commands != [] && j.gate.commands[0] in j.asked && j.gate.tracker.next < 256
    && var id, a := j.gate.commands[0], j.asked[j.gate.commands[0]];
       && A.PullIn(j.gate, k.gate, a.kind, a.args, now)
       && k.sys == S.Next(env, j.sys, S.Gateway(G.Offer(a.kind, a.args, now)))
       && k.filed == j.filed[id := Command(j.gate.tracker.session, j.gate.tracker.next, a.kind, a.args)]
       && k.asked == j.asked && k.outcome == j.outcome && k.reply == j.reply
  }

  /** Outcomes are noted for exactly the ids now to be completed. */
  ghost predicate Extends(j: Joint, k: Joint) {
    && (forall id :: id in k.outcome <==> id in j.outcome || id in k.gate.todo)
    && (forall id :: id in j.outcome && id !in k.gate.todo ==> k.outcome[id] == j.outcome[id])
  }

  /** The reactor takes a command that cannot go out. */
  predicate PulledAside(j: Joint, k: Joint) {
    && j.gate.commands != [] && j.gate.commands[0] in j.asked
    && A.PullAside(j.gate, k.gate, j.asked[j.gate.commands[0]].args)
  }

  /** The gateway itself ends commands: rejected by the reactor, or drained at shutdown. */
  ghost predicate GiveUp(j: Joint, k: Joint) {
    && (PulledAside(j, k)
        || A.DrainQueue(j.gate, k.gate)
        || (exists finished :: A.DrainRequests(j.gate, k.gate, finished)))
    && Extends(j, k) && (forall id :: id in k.gate.todo ==> k.outcome[id] == Turned)
    && k.sys == j.sys && k.asked == j.asked && k.filed == j.filed && k.reply == j.reply
  }

  /** The tracker reacts; each report becomes the completion of the id it is posted for. */
  ghost predicate React(env: R.Env, j: Joint, k: Joint, input: G.Input)
    requires T.Shape(j.sys.gw.t)
  {
    && A.Drive(j.gate, k.gate, input) && S.Enabled(env, j.sys, S.Gateway(input))
    && k.sys == S.Next(env, j.sys, S.Gateway(input))
    && Extends(j, k) && (forall i :: 0 <= i < |k.gate.todo| ==> CompletionOf(j, k, input, i, k.gate.todo[i]))
    && k.asked == j.asked && k.filed == j.filed && k.reply == j.reply
  }

  ghost predicate CompletionOf(j: Joint, k: Joint, input: G.Input, i: int, id: nat)
    requires 0 <= i < |k.gate.todo| && T.Shape(j.gate.tracker)
  {
    var finished := G.React(j.gate.tracker, input).finished;
    && i < |finished| && k.gate.todo[i] == id && id in k.outcome
    && k.outcome[id] == Reported(G.Report(j.gate.tracker.session, finished[i]))
  }

  /** The node receives or its timer fires. */
  ghost predicate NodeActs(env: R.Env, j: Joint, k: Joint, ev: S.Event)
    requires T.Shape(j.sys.gw.t)
  {
    !ev.Gateway? && k.sys == S.Next(env, j.sys, ev) && k.gate == j.gate && SameBooks(j, k)
  }

  /** Steps of the gateway's threads that neither touch the tracker nor settle anything. */
  ghost predicate Moves(g: A.Gate, h: A.Gate) {
    || A.CallerStep(g, h) || A.Begin(g, h) || A.PostPublish(g, h) || A.Release(g, h) || A.ServiceStep(g, h)
    || A.PostFinish(g, h) || (exists task :: A.PostInput(g, h, task)) || A.ManageStep(g, h)
    || A.Retire(g, h) || A.PostBarrier(g, h) || A.Close(g, h)
  }

  ghost predicate Elsewhere(j: Joint, k: Joint) { Moves(j.gate, k.gate) && k.sys == j.sys && SameBooks(j, k) }

  ghost predicate Step(env: R.Env, j: Joint, k: Joint)
    requires T.Shape(j.sys.gw.t)
  {
    Business(j, k) || Reactor(env, j, k) || Elsewhere(j, k) || exists ev: S.Event :: NodeActs(env, j, k, ev)
  }

  ghost predicate Business(j: Joint, k: Joint) {
    || (exists kind: Byte, args: Bytes :: Accept(j, k, kind, args))
    || (exists t: nat, stopping: bool :: TurnDown(j, k, t, stopping))
    || Enqueue(j, k) || Settle(j, k)
  }

  ghost predicate Reactor(env: R.Env, j: Joint, k: Joint)
    requires T.Shape(j.sys.gw.t)
  {
    GiveUp(j, k) || (exists input: G.Input :: React(env, j, k, input)) || exists now: int :: GoOut(env, j, k, now)
  }

  ghost predicate Init(j: Joint) {
    j.gate == A.Start() && S.Init(j.sys) && j.asked == map[] && j.filed == map[] && j.outcome == map[] && j.reply == map[]
  }

  // ------------------------------------------------------------------- invariant

  /** While the reactor runs, its tracker is the gateway end of the protocol. */
  ghost predicate Follows(j: Joint) { j.gate.stage == 0 ==> j.gate.tracker == j.sys.gw.t }

  /** Every pending id is known, for its own ticket. */
  ghost predicate Known(j: Joint) {
    && (forall id :: id in j.asked ==> id < j.gate.nextId)
    && (forall id :: id in j.gate.pending ==> id in j.asked && j.asked[id].ticket == j.gate.pending[id])
  }

  /** An id goes out at most once, as the command it asked for, and no two ids share one. */
  ghost predicate Filed(j: Joint) {
    && (forall id :: id in j.filed ==>
          && id in j.asked && j.filed[id] in j.sys.gw.subs
          && j.filed[id].kind == j.asked[id].kind && j.filed[id].args == j.asked[id].args)
    && (forall a, b :: a in j.filed && b in j.filed && j.filed[a] == j.filed[b] ==> a == b)
  }

  /** What waits to go out has not gone out. */
  ghost predicate Unsent(j: Joint) {
    && (forall i :: 0 <= i < |j.gate.commands| ==> j.gate.commands[i] !in j.filed)
    && (j.gate.work.Submitting? ==> j.gate.work.id !in j.filed)
  }

  /** The id under a number in flight went out under that number. */
  ghost predicate Placed(j: Joint) {
    j.gate.stage == 0 ==> forall q :: q in j.gate.requests ==>
      && j.gate.requests[q] in j.filed
      && j.filed[j.gate.requests[q]].session == j.gate.tracker.session && j.filed[j.gate.requests[q]].num == q
  }

  /** `r` is a report about the command that id went out as. */
  ghost predicate About(j: Joint, id: nat, r: G.Report) {
    && r in j.sys.gw.reports && id in j.filed
    && j.filed[id].session == r.session && j.filed[id].num == r.done.num
  }

  ghost predicate Noted(j: Joint) {
    forall id :: id in j.outcome && j.outcome[id].Reported? ==> About(j, id, j.outcome[id].report)
  }

  ghost predicate Own(j: Joint, t: nat, id: nat, r: G.Report) {
    id in j.asked && j.asked[id].ticket == t && About(j, id, r)
  }

  ghost predicate Replied(j: Joint) {
    forall t :: t in j.reply && j.reply[t].Reported? ==> exists id :: Own(j, t, id, j.reply[t].report)
  }

  ghost predicate Books(j: Joint) { Follows(j) && Known(j) && Filed(j) && Unsent(j) && Placed(j) && Noted(j) && Replied(j) }

  ghost predicate Inv(j: Joint) { AI.Inv(j.gate) && S.Inv(j.sys) && Books(j) }

  lemma InitInv(j: Joint)
    requires Init(j)
    ensures Inv(j)
  {
    AS.StartInv(j.gate);
    S.InitInv(j.sys);
  }

  // ------------------------------------------------------- what the books live on

  /** Logs of the protocol only grow, so what the books say of them stays. */
  ghost predicate Grows(s: S.Sys, s1: S.Sys) {
    && (forall c :: c in s.gw.subs ==> c in s1.gw.subs)
    && (forall r :: r in s.gw.reports ==> r in s1.gw.reports)
  }

  lemma LogsGrow(env: R.Env, s: S.Sys, ev: S.Event)
    requires T.Shape(s.gw.t)
    ensures Grows(s, S.Next(env, s, ev))
    ensures !ev.Gateway? ==> S.Next(env, s, ev).gw == s.gw
  {}

  /** Nothing in the books changes and the logs grow. */
  lemma BooksGrow(j: Joint, k: Joint)
    requires Filed(j) && Noted(j) && Replied(j) && SameBooks(j, k) && Grows(j.sys, k.sys)
    ensures Filed(k) && Noted(k) && Replied(k)
  {
    forall t | t in k.reply && k.reply[t].Reported? ensures exists id :: Own(k, t, id, k.reply[t].report) {
      var id :| Own(j, t, id, j.reply[t].report);
      assert Own(k, t, id, k.reply[t].report);
    }
  }

  // --------------------------------------------------------- steps off the tracker

  /** The reactor's data stays, ids keep their tickets, and the reactor does not come back. */
  predicate Apart(g: A.Gate, h: A.Gate) {
    && h.nextId == g.nextId && h.tracker == g.tracker && h.requests == g.requests && h.commands == g.commands
    && h.pending == g.pending && (h.stage == 0 ==> g.stage == 0)
    && (h.work.Submitting? ==> h.work == g.work)
  }

  lemma CallerApart(g: A.Gate, h: A.Gate)
    requires A.CallerStep(g, h)
    ensures Apart(g, h)
  {}

  lemma ServiceApart(g: A.Gate, h: A.Gate)
    requires A.ServiceStep(g, h)
    ensures Apart(g, h)
  {}

  lemma ManageApart(g: A.Gate, h: A.Gate)
    requires A.ManageStep(g, h)
    ensures Apart(g, h)
  {}

  lemma CoreApart(g: A.Gate, h: A.Gate)
    requires A.Begin(g, h) || A.PostPublish(g, h) || A.Release(g, h) || A.PostFinish(g, h)
    ensures Apart(g, h)
  {}

  lemma MainApart(g: A.Gate, h: A.Gate)
    requires A.Retire(g, h) || A.PostBarrier(g, h) || A.Close(g, h) || exists task :: A.PostInput(g, h, task)
    ensures Apart(g, h)
  {}

  lemma MovesApart(g: A.Gate, h: A.Gate)
    requires Moves(g, h)
    ensures Apart(g, h)
  {
    if A.CallerStep(g, h) {
      CallerApart(g, h);
    } else if A.ServiceStep(g, h) {
      ServiceApart(g, h);
    } else if A.ManageStep(g, h) {
      ManageApart(g, h);
    } else if A.Begin(g, h) || A.PostPublish(g, h) || A.Release(g, h) || A.PostFinish(g, h) {
      CoreApart(g, h);
    } else {
      MainApart(g, h);
    }
  }

  lemma ApartBooks(j: Joint, k: Joint)
    requires Books(j) && Apart(j.gate, k.gate) && k.sys == j.sys && SameBooks(j, k)
    ensures Books(k)
  {
    BooksGrow(j, k);
  }

  lemma RestInv(j: Joint, k: Joint)
    requires Inv(j) && Elsewhere(j, k)
    ensures Inv(k)
  {
    MovesApart(j.gate, k.gate);
    ApartBooks(j, k);
    AS.StepInv(j.gate, k.gate);
  }

  lemma NodeInv(env: R.Env, j: Joint, k: Joint, ev: S.Event)
    requires Inv(j) && NodeActs(env, j, k, ev)
    ensures Inv(k)
  {
    S.NextInv(env, j.sys, ev);
    LogsGrow(env, j.sys, ev);
    BooksGrow(j, k);
  }

  // ------------------------------------------------------------- business thread

  lemma AcceptBooks(j: Joint, k: Joint, kind: Byte, args: Bytes)
    requires Books(j) && Accept(j, k, kind, args)
    ensures Books(k)
  {
    forall t | t in k.reply && k.reply[t].Reported? ensures exists id :: Own(k, t, id, k.reply[t].report) {
      var id :| Own(j, t, id, j.reply[t].report);
      assert Own(k, t, id, k.reply[t].report);
    }
  }

  lemma AcceptInv(j: Joint, k: Joint, kind: Byte, args: Bytes)
    requires Inv(j) && Accept(j, k, kind, args)
    ensures Inv(k)
  {
    AcceptBooks(j, k, kind, args);
    AS.TranslateKeeps(j.gate, k.gate, true);
  }

  /** The answer of one ticket changes to `o`; if that is a report, it is about its own id. */
  lemma ReplySet(j: Joint, k: Joint, t: nat, o: Outcome)
    requires Replied(j) && k.reply == j.reply[t := o] && k.asked == j.asked && k.filed == j.filed && k.sys == j.sys
    requires o.Reported? ==> exists id :: Own(j, t, id, o.report)
    ensures Replied(k)
  {
    forall x | x in k.reply && k.reply[x].Reported? ensures exists id :: Own(k, x, id, k.reply[x].report) {
      var id :| Own(j, x, id, k.reply[x].report);
      assert Own(k, x, id, k.reply[x].report);
    }
  }

  /** Ids may leave the pending set; nothing goes out. */
  predicate Shrinks(g: A.Gate, h: A.Gate) {
    && h.nextId == g.nextId && h.tracker == g.tracker && h.requests == g.requests && h.commands == g.commands
    && h.stage == g.stage && !h.work.Submitting?
    && (forall id :: id in h.pending ==> id in g.pending && h.pending[id] == g.pending[id])
  }

  lemma ShrinkBooks(j: Joint, k: Joint)
    requires Books(j) && Shrinks(j.gate, k.gate) && Replied(k)
    requires k.sys == j.sys && k.asked == j.asked && k.filed == j.filed && k.outcome == j.outcome
    ensures Books(k)
  {}

  lemma TurnDownInv(j: Joint, k: Joint, t: nat, stopping: bool)
    requires Inv(j) && TurnDown(j, k, t, stopping)
    ensures Inv(k)
  {
    ReplySet(j, k, t, Turned);
    TurnDownShrinks(j.gate, k.gate, stopping);
    ShrinkBooks(j, k);
    if A.Translate(j.gate, k.gate, false) {
      AS.TranslateKeeps(j.gate, k.gate, false);
    } else {
      AS.SubmitKeeps(j.gate, k.gate, stopping);
    }
  }

  lemma TurnDownShrinks(g: A.Gate, h: A.Gate, stopping: bool)
    requires A.Translate(g, h, false) || (A.Submit(g, h, stopping) && A.Refuses(g, stopping))
    ensures Shrinks(g, h)
  {}

  lemma SettleInv(j: Joint, k: Joint)
    requires Inv(j) && Settle(j, k)
    ensures Inv(k)
  {
    SettleReplied(j, k);
    EraseShrinks(j.gate, k.gate);
    ShrinkBooks(j, k);
    AS.EraseKeeps(j.gate, k.gate);
  }

  lemma EraseShrinks(g: A.Gate, h: A.Gate)
    requires A.Erase(g, h)
    ensures Shrinks(g, h)
  {}

  /** The answer goes to the ticket the id was made for. */
  lemma SettleReplied(j: Joint, k: Joint)
    requires Books(j) && Settle(j, k)
    ensures Replied(k)
  {
    var id := j.gate.work.id;
    if id in j.gate.pending && id in j.outcome {
      var t, o := j.gate.pending[id], j.outcome[id];
      if o.Reported? { assert Own(j, t, id, o.report); }
      ReplySet(j, k, t, o);
    } else {
      BooksGrow(j, k);
    }
  }

  lemma EnqueueInv(j: Joint, k: Joint)
    requires Inv(j) && Enqueue(j, k)
    ensures Inv(k)
  {
    EnqueueBooks(j, k);
    AS.SubmitKeeps(j.gate, k.gate, false);
  }

  lemma EnqueueBooks(j: Joint, k: Joint)
    requires Books(j) && Enqueue(j, k)
    ensures Books(k)
  {
    BooksGrow(j, k);
  }

  // -------------------------------------------------------------------- reactor

  /** The id at the head of the queue is nowhere else. */
  lemma HeadIsUnique(g: A.Gate)
    requires AI.Ids(g) && g.commands != []
    ensures forall i :: 0 < i < |g.commands| ==> g.commands[i] != g.commands[0]
    ensures g.work.Submitting? ==> g.work.id != g.commands[0]
  {
    var id := g.commands[0];
    CountsOnce(g, id);
    HeadOnce(g.commands);
    assert multiset(g.commands)[id] >= 1;
  }

  lemma CountsOnce(g: A.Gate, id: nat)
    requires AI.Ids(g)
    ensures multiset(g.commands)[id] + AI.WorkId(g.work)[id] <= 1
  {
    assert AI.Carried(g)[id] <= 1;
  }

  lemma HeadOnce(s: seq<nat>)
    requires s != [] && multiset(s)[s[0]] <= 1
    ensures forall i :: 0 < i < |s| ==> s[i] != s[0]
  {
    assert s == [s[0]] + s[1..];
    forall i | 0 < i < |s| ensures s[i] != s[0] {
      assert s[1..][i - 1] == s[i];
      assert s[i] in multiset(s[1..]);
    }
  }

  /** A newly submitted command is none of those submitted before. */
  lemma NewCommand(l: G.Ledger, c: Command)
    requires G.Inv(l) && c.session == l.t.session && c.num == l.t.next
    ensures c !in l.subs
  {}

  ghost predicate GoesOut(j: Joint, k: Joint, id: nat, c: Command) {
    && j.gate.stage == 0 && j.gate.commands != [] && j.gate.commands[0] == id && id in j.asked && id !in j.filed
    && c !in j.sys.gw.subs && c in k.sys.gw.subs && Grows(j.sys, k.sys)
    && c.kind == j.asked[id].kind && c.args == j.asked[id].args
    && k.filed == j.filed[id := c] && k.asked == j.asked && k.outcome == j.outcome && k.reply == j.reply
  }

  lemma GoOutFiled(j: Joint, k: Joint, id: nat, c: Command)
    requires Filed(j) && Noted(j) && Replied(j) && GoesOut(j, k, id, c)
    ensures Filed(k) && Noted(k) && Replied(k)
  {
    forall t | t in k.reply && k.reply[t].Reported? ensures exists i :: Own(k, t, i, k.reply[t].report) {
      var i :| Own(j, t, i, j.reply[t].report);
      assert Own(k, t, i, k.reply[t].report);
    }
  }

  lemma GoOutPlaced(j: Joint, k: Joint, c: Command)
    requires Placed(j) && Unsent(j) && AI.Ids(j.gate) && j.gate.commands != [] && GoesOut(j, k, j.gate.commands[0], c)
    requires k.gate.commands == j.gate.commands[1..] && k.gate.work == j.gate.work && k.gate.stage == j.gate.stage
    requires k.gate.requests == j.gate.requests[c.num := j.gate.commands[0]] && c.num !in j.gate.requests
    requires k.gate.tracker.session == j.gate.tracker.session == c.session
    ensures Placed(k) && Unsent(k)
  {
    HeadIsUnique(j.gate);
  }

  lemma GoOutSystem(env: R.Env, j: Joint, k: Joint, now: int)
    requires S.Inv(j.sys) && Follows(j) && Unsent(j) && GoOut(env, j, k, now)
    ensures S.Inv(k.sys) && Follows(k)
    ensures var id, a := j.gate.commands[0], j.asked[j.gate.commands[0]];
            GoesOut(j, k, id, Command(j.gate.tracker.session, j.gate.tracker.next, a.kind, a.args))
  {
    var id, a := j.gate.commands[0], j.asked[j.gate.commands[0]];
    var c := Command(j.gate.tracker.session, j.gate.tracker.next, a.kind, a.args);
    var ev := S.Gateway(G.Offer(a.kind, a.args, now));
    S.NextInv(env, j.sys, ev);
    LogsGrow(env, j.sys, ev);
    NewCommand(j.sys.gw, c);
    OfferFiles(env, j.sys, a.kind, a.args, now);
  }

  lemma OfferFiles(env: R.Env, s: S.Sys, kind: Byte, args: Bytes, now: int)
    requires T.Shape(s.gw.t) && T.Accepts(s.gw.t, args)
    ensures var s1 := S.Next(env, s, S.Gateway(G.Offer(kind, args, now)));
            && s1.gw.t == T.Submit(s.gw.t, kind, args, now).t
            && s1.gw.subs == s.gw.subs + [Command(s.gw.t.session, s.gw.t.next, kind, args)]
  {}

  lemma GoOutBooks(env: R.Env, j: Joint, k: Joint, now: int)
    requires Books(j) && S.Inv(j.sys) && AI.Ids(j.gate) && GoOut(env, j, k, now)
    requires j.gate.tracker.next !in j.gate.requests
    requires k.gate.requests == j.gate.requests[j.gate.tracker.next := j.gate.commands[0]]
    requires k.gate.tracker.session == j.gate.tracker.session && k.gate.nextId == j.gate.nextId && k.gate.pending == j.gate.pending
    ensures Books(k) && S.Inv(k.sys)
  {
    var id, a := j.gate.commands[0], j.asked[j.gate.commands[0]];
    var c := Command(j.gate.tracker.session, j.gate.tracker.next, a.kind, a.args);
    GoOutSystem(env, j, k, now);
    GoOutFiled(j, k, id, c);
    GoOutPlaced(j, k, c);
  }

  lemma GoOutInv(env: R.Env, j: Joint, k: Joint, now: int)
    requires Inv(j) && GoOut(env, j, k, now)
    ensures Inv(k)
  {
    var a := j.asked[j.gate.commands[0]];
    GoOutGate(j.gate, k.gate, a.kind, a.args, now);
    GoOutBooks(env, j, k, now);
  }

  lemma GoOutGate(g: A.Gate, h: A.Gate, kind: Byte, args: Bytes, now: int)
    requires AI.Inv(g) && A.PullIn(g, h, kind, args, now)
    ensures AI.Inv(h) && g.tracker.next !in g.requests && h.requests == g.requests[g.tracker.next := g.commands[0]]
    ensures h.tracker.session == g.tracker.session && h.nextId == g.nextId && h.pending == g.pending
  {
    AS.PullInMatched(g, h, kind, args, now);
    AS.PullInKeeps(g, h, kind, args, now);
  }

  lemma GiveUpGate(j: Joint, k: Joint)
    requires AI.Inv(j.gate) && GiveUp(j, k)
    ensures AI.Inv(k.gate)
  {
    if PulledAside(j, k) {
      AS.PullAsideKeeps(j.gate, k.gate, j.asked[j.gate.commands[0]].args);
    } else if A.DrainQueue(j.gate, k.gate) {
      AS.DrainQueueKeeps(j.gate, k.gate);
    } else {
      var finished :| A.DrainRequests(j.gate, k.gate, finished);
      AS.DrainRequestsKeeps(j.gate, k.gate, finished);
    }
  }

  lemma GiveUpBooks(j: Joint, k: Joint)
    requires Books(j) && GiveUp(j, k)
    ensures Books(k)
  {
    forall t | t in k.reply && k.reply[t].Reported? ensures exists id :: Own(k, t, id, k.reply[t].report) {
      var id :| Own(j, t, id, j.reply[t].report);
      assert Own(k, t, id, k.reply[t].report);
    }
  }

  lemma GiveUpInv(j: Joint, k: Joint)
    requires Inv(j) && GiveUp(j, k)
    ensures Inv(k)
  {
    GiveUpGate(j, k);
    GiveUpBooks(j, k);
  }

  lemma {:induction false} RemainingIsPart(m: map<Byte, nat>, finished: seq<T.Completion>)
    ensures forall q :: q in A.Remaining(m, finished) ==> q in m && A.Remaining(m, finished)[q] == m[q]
    decreases |finished|
  {
    if finished != [] { RemainingIsPart(m - {finished[0].num}, finished[1..]); }
  }

  /** A report in hand is about the command its id went out as. */
  lemma ReactNoted(env: R.Env, j: Joint, k: Joint, input: G.Input)
    requires AI.Matched(j.gate) && Follows(j) && Placed(j) && Noted(j) && T.Shape(j.sys.gw.t) && React(env, j, k, input)
    requires Grows(j.sys, k.sys)
    ensures Noted(k)
  {
    forall id | id in k.outcome && k.outcome[id].Reported? ensures About(k, id, k.outcome[id].report) {
      if id in k.gate.todo {
        var i :| 0 <= i < |k.gate.todo| && k.gate.todo[i] == id;
        NewlyNoted(env, j, k, input, i);
      }
    }
  }

  lemma NewlyNoted(env: R.Env, j: Joint, k: Joint, input: G.Input, i: nat)
    requires AI.Matched(j.gate) && Follows(j) && Placed(j) && T.Shape(j.sys.gw.t) && React(env, j, k, input)
    requires i < |k.gate.todo|
    ensures k.gate.todo[i] in k.outcome && k.outcome[k.gate.todo[i]].Reported?
    ensures About(k, k.gate.todo[i], k.outcome[k.gate.todo[i]].report)
  {
    AT.ReportsKnown(j.gate, k.gate, input);
    assert CompletionOf(j, k, input, i, k.gate.todo[i]);
    var finished := G.React(j.gate.tracker, input).finished;
    assert k.sys.gw.reports[|j.sys.gw.reports| + i] == G.Report(j.sys.gw.t.session, finished[i]);
  }

  lemma ReactPlaced(env: R.Env, j: Joint, k: Joint, input: G.Input)
    requires AI.Matched(j.gate) && AI.Matched(k.gate) && Placed(j) && T.Shape(j.sys.gw.t) && React(env, j, k, input)
    ensures Placed(k)
  {
    RemainingIsPart(j.gate.requests, G.React(j.gate.tracker, input).finished);
    G.ReactKeeps(j.gate.tracker, input);
  }

  lemma ReactBooks(env: R.Env, j: Joint, k: Joint, input: G.Input)
    requires Books(j) && AI.Matched(j.gate) && AI.Matched(k.gate) && T.Shape(j.sys.gw.t) && React(env, j, k, input)
    ensures Books(k)
  {
    LogsGrow(env, j.sys, S.Gateway(input));
    ReactNoted(env, j, k, input);
    ReactPlaced(env, j, k, input);
    var same := k.(outcome := j.outcome);
    BooksGrow(j, same);
    ReplySame(same, k);
  }

  lemma ReplySame(j: Joint, k: Joint)
    requires Replied(j) && k == j.(outcome := k.outcome)
    ensures Replied(k)
  {
    forall t | t in k.reply && k.reply[t].Reported? ensures exists id :: Own(k, t, id, k.reply[t].report) {
      var id :| Own(j, t, id, j.reply[t].report);
      assert Own(k, t, id, k.reply[t].report);
    }
  }

  lemma ReactInv(env: R.Env, j: Joint, k: Joint, input: G.Input)
    requires Inv(j) && React(env, j, k, input)
    ensures Inv(k)
  {
    AS.DriveKeeps(j.gate, k.gate, input);
    S.NextInv(env, j.sys, S.Gateway(input));
    ReactBooks(env, j, k, input);
  }

  // ------------------------------------------------------------------- every run

  lemma BusinessInv(j: Joint, k: Joint)
    requires Inv(j) && Business(j, k)
    ensures Inv(k)
  {
    if kind: Byte, args: Bytes :| Accept(j, k, kind, args) {
      AcceptInv(j, k, kind, args);
    } else if t: nat, stopping: bool :| TurnDown(j, k, t, stopping) {
      TurnDownInv(j, k, t, stopping);
    } else if Enqueue(j, k) {
      EnqueueInv(j, k);
    } else {
      SettleInv(j, k);
    }
  }

  lemma ReactorInv(env: R.Env, j: Joint, k: Joint)
    requires Inv(j) && Reactor(env, j, k)
    ensures Inv(k)
  {
    if GiveUp(j, k) {
      GiveUpInv(j, k);
    } else if input: G.Input :| React(env, j, k, input) {
      ReactInv(env, j, k, input);
    } else {
      var now: int :| GoOut(env, j, k, now);
      GoOutInv(env, j, k, now);
    }
  }

  lemma StepInv(env: R.Env, j: Joint, k: Joint)
    requires Inv(j) && Step(env, j, k)
    ensures Inv(k)
  {
    if Business(j, k) {
      BusinessInv(j, k);
    } else if Reactor(env, j, k) {
      ReactorInv(env, j, k);
    } else if Elsewhere(j, k) {
      RestInv(j, k);
    } else {
      var ev: S.Event :| NodeActs(env, j, k, ev);
      NodeInv(env, j, k, ev);
    }
  }

  ghost predicate Run(env: R.Env, states: seq<Joint>) {
    && states != [] && Init(states[0])
    && forall i :: 0 < i < |states| ==> Linked(env, states[i - 1], states[i])
  }

  ghost predicate Linked(env: R.Env, j: Joint, k: Joint) { T.Shape(j.sys.gw.t) && Step(env, j, k) }

  lemma {:induction false} RunInv(env: R.Env, states: seq<Joint>)
    requires Run(env, states)
    ensures Inv(states[|states| - 1])
  {
    var n := |states| - 1;
    if n == 0 {
      InitInv(states[0]);
    } else {
      RunInv(env, states[..n]);
      assert Linked(env, states[n - 1], states[n]);
      StepInv(env, states[n - 1], states[n]);
    }
  }

  /** Ticket `t` asked for a command, and exactly one execution of that very command,
      submitted for this ticket and no other, produced the bytes of the answer. */
  ghost predicate Granted(env: R.Env, j: Joint, t: nat, r: G.Report) {
    exists id ::
      && Own(j, t, id, r)
      && j.filed[id].kind == j.asked[id].kind && j.filed[id].args == j.asked[id].args
      && (forall other :: other in j.filed && j.filed[other] == j.filed[id] ==> other == id)
      && RanOnce(env, j.sys.node, j.filed[id], r.done.result)
  }

  /** One execution of exactly this command, its result the hook's reply to it. */
  ghost predicate RanOnce(env: R.Env, node: R.Run, c: Command, result: Bytes) {
    && (exists i :: RanAt(env, node, i, c, result))
    && (forall a, b :: (0 <= a < |node.ran| && 0 <= b < |node.ran|
                        && SameNumber(node.ran[a].cmd, c) && SameNumber(node.ran[b].cmd, c)) ==> a == b)
  }

  ghost predicate RanAt(env: R.Env, node: R.Run, i: int, c: Command, result: Bytes) {
    && 0 <= i < |node.ran| <= node.runs && node.ran[i] == R.Execution(c, result)
    && N.ProducedBy(result, env.reply(node.runs - |node.ran| + i))
  }

  ghost predicate SameNumber(a: Command, b: Command) { a.session == b.session && a.num == b.num }

  lemma ReportRanOnce(env: R.Env, s: S.Sys, c: Command, r: G.Report)
    requires S.Inv(s) && N.FromHook(env, s.node) && r in s.gw.reports && r.done.error.NoError? && c in s.gw.subs
    requires c.session == r.session && c.num == r.done.num
    ensures RanOnce(env, s.node, c, r.done.result)
  {
    ST.SuccessIsExecuted(env, s, r);
    var i :| ST.Behind(env, s, r, i);
    G.SameKey(s.gw.subs, c, s.node.ran[i].cmd);
    assert RanAt(env, s.node, i, c, r.done.result);
    forall a, b | 0 <= a < |s.node.ran| && 0 <= b < |s.node.ran|
                  && SameNumber(s.node.ran[a].cmd, c) && SameNumber(s.node.ran[b].cmd, c)
      ensures a == b
    {
      assert ST.Key(s.node.ran[a], r) && ST.Key(s.node.ran[b], r);
    }
  }

  /** Only the protocol's own steps touch the node. */
  lemma StepHook(env: R.Env, j: Joint, k: Joint)
    requires T.Shape(j.sys.gw.t) && Step(env, j, k) && N.FromHook(env, j.sys.node)
    ensures N.FromHook(env, k.sys.node)
  {
    if ev: S.Event :| NodeActs(env, j, k, ev) {
      ST.HookStep(env, j.sys, ev);
    } else {
      NodeUntouched(env, j, k);
    }
  }

  lemma NodeUntouched(env: R.Env, j: Joint, k: Joint)
    requires T.Shape(j.sys.gw.t) && (Business(j, k) || Reactor(env, j, k) || Elsewhere(j, k))
    ensures k.sys.node == j.sys.node
  {}

  lemma {:induction false} RunHook(env: R.Env, states: seq<Joint>)
    requires Run(env, states)
    ensures N.FromHook(env, states[|states| - 1].sys.node)
  {
    var n := |states| - 1;
    if n > 0 {
      RunHook(env, states[..n]);
      assert Linked(env, states[n - 1], states[n]);
      StepHook(env, states[n - 1], states[n]);
    }
  }

  lemma InvServes(env: R.Env, j: Joint, t: nat)
    requires S.Inv(j.sys) && N.FromHook(env, j.sys.node) && Filed(j) && Replied(j)
    requires t in j.reply && j.reply[t].Reported? && j.reply[t].report.done.error.NoError?
    ensures Granted(env, j, t, j.reply[t].report)
  {
    var r := j.reply[t].report;
    var id :| Own(j, t, id, r);
    ReportRanOnce(env, j.sys, j.filed[id], r);
  }

  /** In every run of threads, protocol, channel and node: an MQTT client whose answer
      reports success has had its own command executed by the node, exactly once, and is
      given the bytes the node's hook produced for it. */
  lemma SuccessIsOwn(env: R.Env, states: seq<Joint>, t: nat)
    requires Run(env, states) && t in states[|states| - 1].reply
    requires states[|states| - 1].reply[t].Reported? && states[|states| - 1].reply[t].report.done.error.NoError?
    ensures Granted(env, states[|states| - 1], t, states[|states| - 1].reply[t].report)
  {
    RunInv(env, states);
    RunHook(env, states);
    InvServes(env, states[|states| - 1], t);
  }
}
