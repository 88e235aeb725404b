/** What an answer says: exactly what became of the client's own command. */
module AnswerContent {
  import opened Protocol
  import opened Mailbox
  import A = Accounting
  import AI = AccountingInv
  import AM = AccountingMoves
  import AT = AccountingTheorems
  import T = Tracker
  import G = Sender
  import R = Receiver
  import S = SrSystem
  import opened EndToEnd
  import opened Answers

  // ------------------------------------------------------------------- invariant

  /** Tickets whose message has not been translated yet. */
  function Unread(g: A.Gate): multiset<nat> { g.entering + g.leaving + Sum(g.core.tasks, AI.TicketOf) + Translated(g.work) }

  /** An id was made for the ticket. */
  predicate For(j: Joint, id: nat, t: nat) { id in j.asked && j.asked[id].ticket == t }

  /** At most one id is made for a ticket, when its message is translated. */
  ghost predicate Made(j: Joint) {
    && (forall a, b :: a in j.asked && b in j.asked && j.asked[a].ticket == j.asked[b].ticket ==> a == b)
    && (forall id :: id in j.asked ==> j.asked[id].ticket < j.gate.tickets && j.asked[id].ticket !in Unread(j.gate))
  }

  /** Once a completion is noted for an id, it is out of queue and window. */
  ghost predicate Over(j: Joint) {
    forall id :: id in j.outcome ==>
      id in j.asked && id !in j.gate.commands && id !in j.gate.requests.Values && j.gate.work != A.Submitting(id)
  }

  ghost predicate Concerns(c: Command, r: G.Report) { c.session == r.session && c.num == r.done.num }

  /** Every report about a command is the completion noted for its id. */
  ghost predicate Relayed(j: Joint) {
    forall id, r :: id in j.filed && r in j.sys.gw.reports && Concerns(j.filed[id], r) ==>
      id in j.outcome && j.outcome[id] == Reported(r)
  }

  /** The answer is the completion noted for the ticket's id... */
  ghost predicate AsCompleted(j: Joint, t: nat, id: nat)
    requires t in j.reply
  {
    For(j, id, t) && id in j.outcome && j.reply[t] == j.outcome[id] && id !in j.gate.pending
  }

  /** ...or a rejection of a message that never became a command in the queue. */
  ghost predicate AsRefused(j: Joint, t: nat)
    requires t in j.reply
  {
    j.reply[t] == Turned && forall id :: For(j, id, t) ==> id !in j.outcome && id !in j.filed && id !in j.gate.pending
  }

  ghost predicate Exact(j: Joint) { forall t :: t in j.reply ==> AsRefused(j, t) || exists id :: AsCompleted(j, t, id) }

  ghost predicate Content(j: Joint) { Made(j) && Over(j) && Relayed(j) && Exact(j) }

  lemma StartContent(j: Joint)
    requires Init(j)
    ensures Content(j)
  {}

  // ------------------------------------------------------------- tickets and ids

  lemma OnePlace(g: A.Gate, t: nat)
    requires AI.Tickets(g)
    ensures Unread(g)[t] + multiset(g.pending.Values)[t] <= 1
  {
    assert (AI.Live(g) + AI.Over(g))[t] == AI.One(t < g.tickets);
    assert AI.Live(g)[t] >= Unread(g)[t] + multiset(g.pending.Values)[t];
  }

  lemma UnreadFlows(g: A.Gate, h: A.Gate, t: nat)
    requires AI.Tickets(h) && EarlyFlows(g, h) && h.pending == g.pending && t in Unread(h)
    ensures t in Unread(g) || t >= g.tickets
  {
    OnePlace(h, t);
    assert t in Early(h);
  }

  /** An id to be completed is nowhere else. */
  lemma TodoIsUnique(g: A.Gate, id: nat)
    requires AI.Ids(g) && id in g.todo
    ensures id in g.pending && id !in g.commands && id !in g.requests.Values && g.work != A.Submitting(id)
  {
    assert multiset(g.todo)[id] >= 1;
    assert AI.Carried(g)[id] == multiset(g.pending.Keys)[id] <= 1;
    assert AI.Carried(g)[id] >= multiset(g.commands)[id] + multiset(g.requests.Values)[id] + multiset(g.todo)[id] + AI.WorkId(g.work)[id];
  }

  /** Books, pending ids and completions stay; only places of tickets change. */
  lemma QuietContent(j: Joint, k: Joint)
    requires Content(j) && AI.Tickets(k.gate) && Apart(j.gate, k.gate) && Flows(j.gate, k.gate)
    requires k.sys.gw.reports == j.sys.gw.reports && SameBooks(j, k)
    ensures Content(k)
  {
    forall id | id in k.asked ensures k.asked[id].ticket < k.gate.tickets && k.asked[id].ticket !in Unread(k.gate) {
      if k.asked[id].ticket in Unread(k.gate) { UnreadFlows(j.gate, k.gate, k.asked[id].ticket); }
    }
    SameExact(j, k);
  }

  lemma SameExact(j: Joint, k: Joint)
    requires Exact(j) && SameBooks(j, k) && k.gate.pending == j.gate.pending
    ensures Exact(k)
  {
    forall t | t in k.reply ensures AsRefused(k, t) || exists id :: AsCompleted(k, t, id) {
      if !AsRefused(j, t) {
        var id :| AsCompleted(j, t, id);
        assert AsCompleted(k, t, id);
      }
    }
  }

  lemma RestContent(j: Joint, k: Joint)
    requires Content(j) && AI.Tickets(k.gate) && Elsewhere(j, k)
    ensures Content(k)
  {
    MovesApart(j.gate, k.gate);
    MovesFlows(j.gate, k.gate);
    QuietContent(j, k);
  }

  lemma NodeContent(env: R.Env, j: Joint, k: Joint, ev: S.Event)
    requires Content(j) && T.Shape(j.sys.gw.t) && NodeActs(env, j, k, ev)
    ensures Content(k)
  {
    LogsGrow(env, j.sys, ev);
    SameExact(j, k);
  }

  // ------------------------------------------------------------- business thread

  /** Causes survive when outcomes only grow, ids only leave, and new ids and newly filed
      ones are for tickets not answered yet. */
  ghost predicate Preserves(j: Joint, k: Joint) {
    && (forall id :: id in j.asked ==> id in k.asked && k.asked[id] == j.asked[id])
    && (forall id :: id in j.outcome ==> id in k.outcome && k.outcome[id] == j.outcome[id])
    && (forall id :: id in j.asked && id !in j.gate.pending ==>
          && id !in k.gate.pending
          && (id in k.outcome ==> id in j.outcome)
          && (id in k.filed ==> id in j.filed))
    && (forall id :: id in k.asked && id !in j.asked ==> k.asked[id].ticket !in j.reply)
  }

  lemma CauseKept(j: Joint, k: Joint, t: nat)
    requires Preserves(j, k) && t in j.reply && t in k.reply && k.reply[t] == j.reply[t]
    requires AsRefused(j, t) || exists id :: AsCompleted(j, t, id)
    ensures AsRefused(k, t) || exists id :: AsCompleted(k, t, id)
  {
    if AsRefused(j, t) {
      forall id | For(k, id, t) ensures id !in k.outcome && id !in k.filed && id !in k.gate.pending {
        assert For(j, id, t);
      }
    } else {
      var id :| AsCompleted(j, t, id);
      assert AsCompleted(k, t, id);
    }
  }

  lemma ExactKept(j: Joint, k: Joint)
    requires Exact(j) && Preserves(j, k) && k.reply == j.reply
    ensures Exact(k)
  {
    forall t | t in k.reply ensures AsRefused(k, t) || exists id :: AsCompleted(k, t, id) { CauseKept(j, k, t); }
  }

  /** One ticket is newly answered, for a cause; the others keep theirs. */
  lemma ExactSet(j: Joint, k: Joint, t: nat, o: Outcome)
    requires Exact(j) && Preserves(j, k) && k.reply == j.reply[t := o]
    requires AsRefused(k, t) || exists id :: AsCompleted(k, t, id)
    ensures Exact(k)
  {
    forall x | x in k.reply ensures AsRefused(k, x) || exists id :: AsCompleted(k, x, id) {
      if x != t { CauseKept(j, k, x); }
    }
  }

  lemma RelayedKept(j: Joint, k: Joint)
    requires Relayed(j) && k.filed == j.filed && k.outcome == j.outcome && k.sys.gw.reports == j.sys.gw.reports
    ensures Relayed(k)
  {}

  lemma AcceptPreserves(j: Joint, k: Joint, kind: Byte, args: Bytes)
    requires Known(j) && Pristine(j) && Accept(j, k, kind, args)
    ensures Preserves(j, k)
  {
    assert j.gate.work.ticket in Translated(j.gate.work);
    assert j.gate.work.ticket in Early(j.gate);
  }

  lemma AcceptContent(j: Joint, k: Joint, kind: Byte, args: Bytes)
    requires Content(j) && Known(j) && Pristine(j) && AI.Tickets(k.gate) && Accept(j, k, kind, args)
    ensures Content(k)
  {
    AcceptMade(j, k, kind, args);
    AcceptOver(j, k, kind, args);
    RelayedKept(j, k);
    AcceptPreserves(j, k, kind, args);
    ExactKept(j, k);
  }

  lemma AcceptMade(j: Joint, k: Joint, kind: Byte, args: Bytes)
    requires Made(j) && Known(j) && AI.Tickets(k.gate) && Accept(j, k, kind, args)
    ensures Made(k)
  {
    var t := j.gate.work.ticket;
    assert t in Unread(j.gate);
    assert k.gate.pending[j.gate.nextId] == t;
    assert t in k.gate.pending.Values;
    OnePlace(k.gate, t);
    EachBelow(k.gate, t);
  }

  lemma EachBelow(g: A.Gate, t: nat)
    requires AI.Tickets(g) && t in g.pending.Values
    ensures t < g.tickets
  {
    assert (AI.Live(g) + AI.Over(g))[t] == AI.One(t < g.tickets);
    assert AI.Live(g)[t] >= multiset(g.pending.Values)[t];
  }

  lemma AcceptOver(j: Joint, k: Joint, kind: Byte, args: Bytes)
    requires Over(j) && Known(j) && Accept(j, k, kind, args)
    ensures Over(k)
  {}

  /** Erasing an id, or failing to make one, leaves books and places as they are. */
  predicate Drops(g: A.Gate, h: A.Gate) {
    && Shrinks(g, h) && h.tickets == g.tickets && h.entering == g.entering && h.leaving == g.leaving
    && h.core.tasks == g.core.tasks && !h.work.Translating?
  }

  lemma TurnDownDrops(g: A.Gate, h: A.Gate, stopping: bool)
    requires A.Translate(g, h, false) || (A.Submit(g, h, stopping) && A.Refuses(g, stopping))
    ensures Drops(g, h)
  {}

  lemma EraseDrops(g: A.Gate, h: A.Gate)
    requires A.Erase(g, h)
    ensures Drops(g, h)
  {}

  lemma DropsContent(j: Joint, k: Joint)
    requires Made(j) && Over(j) && Relayed(j) && Drops(j.gate, k.gate)
    requires k.sys == j.sys && k.asked == j.asked && k.filed == j.filed && k.outcome == j.outcome
    ensures Made(k) && Over(k) && Relayed(k) && Preserves(j, k)
  {
    RelayedKept(j, k);
    assert forall t :: t in Unread(k.gate) ==> t in Unread(j.gate);
  }

  lemma TurnDownContent(j: Joint, k: Joint, t: nat, stopping: bool)
    requires Content(j) && Known(j) && Unsent(j) && AI.Ids(j.gate) && TurnDown(j, k, t, stopping)
    ensures Content(k)
  {
    TurnDownRefuses(j, k, t, stopping);
    TurnDownDrops(j.gate, k.gate, stopping);
    DropsContent(j, k);
    ExactSet(j, k, t, Turned);
  }

  lemma TurnDownRefuses(j: Joint, k: Joint, t: nat, stopping: bool)
    requires Made(j) && Over(j) && Known(j) && Unsent(j) && AI.Ids(j.gate) && TurnDown(j, k, t, stopping)
    ensures t in k.reply && AsRefused(k, t)
  {
    if A.Translate(j.gate, k.gate, false) {
      assert t in Unread(j.gate);
    } else {
      AM.WorkIsPending(j.gate);
      assert For(j, j.gate.work.id, t);
    }
  }

  lemma SettleCompletes(j: Joint, k: Joint)
    requires Known(j) && Prepared(j) && AI.Ids(j.gate) && Settle(j, k)
    ensures j.gate.work.id in j.gate.pending && j.gate.work.id in j.outcome
    ensures k.reply == j.reply[j.gate.pending[j.gate.work.id] := j.outcome[j.gate.work.id]]
    ensures AsCompleted(k, j.gate.pending[j.gate.work.id], j.gate.work.id)
  {
    AM.WorkIsPending(j.gate);
    assert j.gate.work.id in Completing(j.gate);
  }

  lemma SettleContent(j: Joint, k: Joint)
    requires Content(j) && Known(j) && Prepared(j) && AI.Ids(j.gate) && Settle(j, k)
    ensures Content(k)
  {
    SettleCompletes(j, k);
    EraseDrops(j.gate, k.gate);
    DropsContent(j, k);
    ExactSet(j, k, j.gate.pending[j.gate.work.id], j.outcome[j.gate.work.id]);
  }

  lemma EnqueueContent(j: Joint, k: Joint)
    requires Content(j) && Enqueue(j, k)
    ensures Content(k)
  {
    EnqueuePlaces(j, k);
    RelayedKept(j, k);
    SameExact(j, k);
  }

  lemma EnqueuePlaces(j: Joint, k: Joint)
    requires Made(j) && Over(j) && Enqueue(j, k)
    ensures Made(k) && Over(k)
  {
    assert forall t :: t in Unread(k.gate) ==> t in Unread(j.gate);
  }

  // --------------------------------------------------------------------- reactor

  /** No report was made yet about a command just submitted. */
  lemma NothingReported(l: G.Ledger, c: Command, r: G.Report)
    requires G.Inv(l) && c.session == l.t.session && c.num == l.t.next && r in l.reports
    ensures !Concerns(c, r)
  {
    var i :| 0 <= i < |l.reports| && l.reports[i] == r;
    assert G.Stands(l, r);
    var d :| d in l.subs && G.Closes(r, d) && d.kind == r.done.kind && !G.InFlight(l, d);
  }

  lemma GoOutContent(env: R.Env, j: Joint, k: Joint, now: int)
    requires Content(j) && Books(j) && S.Inv(j.sys) && AI.Ids(j.gate) && AI.Matched(j.gate) && GoOut(env, j, k, now)
    ensures Content(k)
  {
    var id, a := j.gate.commands[0], j.asked[j.gate.commands[0]];
    var c := Command(j.gate.tracker.session, j.gate.tracker.next, a.kind, a.args);
    GoOutRelayed(env, j, k, now);
    GoOutOver(env, j, k, now);
    assert Unread(k.gate) == Unread(j.gate);
    GoOutPreserves(env, j, k, now);
    ExactKept(j, k);
  }

  lemma RelayedAdd(j: Joint, k: Joint, id: nat, c: Command)
    requires Relayed(j) && k.filed == j.filed[id := c] && k.outcome == j.outcome && k.sys.gw.reports == j.sys.gw.reports
    requires forall r :: r in j.sys.gw.reports ==> !Concerns(c, r)
    ensures Relayed(k)
  {}

  lemma OfferReportsNothing(env: R.Env, s: S.Sys, kind: Byte, args: Bytes, now: int)
    requires T.Shape(s.gw.t)
    ensures S.Next(env, s, S.Gateway(G.Offer(kind, args, now))).gw.reports == s.gw.reports
  {}

  lemma GoOutRelayed(env: R.Env, j: Joint, k: Joint, now: int)
    requires Relayed(j) && Follows(j) && G.Inv(j.sys.gw) && GoOut(env, j, k, now)
    ensures Relayed(k)
  {
    var id, a := j.gate.commands[0], j.asked[j.gate.commands[0]];
    var c := Command(j.gate.tracker.session, j.gate.tracker.next, a.kind, a.args);
    OfferReportsNothing(env, j.sys, a.kind, a.args, now);
    forall r | r in j.sys.gw.reports ensures !Concerns(c, r) { NothingReported(j.sys.gw, c, r); }
    RelayedAdd(j, k, id, c);
  }

  lemma GoOutOver(env: R.Env, j: Joint, k: Joint, now: int)
    requires Over(j) && AI.Matched(j.gate) && T.Shape(j.sys.gw.t) && GoOut(env, j, k, now)
    ensures Over(k)
  {
    var id := j.gate.commands[0];
    forall x | x in k.gate.requests.Values ensures x in j.gate.requests.Values || x == id {
      var q :| q in k.gate.requests && k.gate.requests[q] == x;
      if q in j.gate.requests && j.gate.requests[q] == x { assert x in j.gate.requests.Values; }
    }
  }

  lemma GoOutPreserves(env: R.Env, j: Joint, k: Joint, now: int)
    requires AI.Ids(j.gate) && T.Shape(j.sys.gw.t) && GoOut(env, j, k, now)
    ensures Preserves(j, k)
  {
    HeadPending(j.gate);
  }

  lemma HeadPending(g: A.Gate)
    requires AI.Ids(g) && g.commands != []
    ensures g.commands[0] in g.pending
  {
    AT.CarriedIsPending(g, g.commands[0]);
    assert multiset(g.commands)[g.commands[0]] >= 1;
  }

  /** The ids now to be completed had no completion before. */
  ghost predicate NewlyDone(j: Joint, k: Joint) { forall id :: id in k.gate.todo ==> id !in j.outcome && id in k.gate.pending }

  lemma DonePreserves(j: Joint, k: Joint)
    requires NewlyDone(j, k) && Extends(j, k) && k.asked == j.asked && k.filed == j.filed && k.gate.pending == j.gate.pending
    ensures Preserves(j, k)
  {}

  lemma DoneOver(j: Joint, k: Joint)
    requires Over(j) && Known(j) && AI.Ids(k.gate) && NewlyDone(j, k) && Extends(j, k) && k.asked == j.asked
    requires k.gate.pending == j.gate.pending && k.gate.work == j.gate.work
    requires forall id :: id in k.gate.commands ==> id in j.gate.commands
    requires forall id :: id in k.gate.requests.Values ==> id in j.gate.requests.Values
    ensures Over(k)
  {
    forall id | id in k.outcome
      ensures id in k.asked && id !in k.gate.commands && id !in k.gate.requests.Values && k.gate.work != A.Submitting(id)
    {
      if id in k.gate.todo { TodoIsUnique(k.gate, id); }
    }
  }

  /** Ids to be completed come out of queue or window. */
  ghost predicate ComesOut(g: A.Gate, h: A.Gate) {
    && g.todo == [] && h.pending == g.pending && h.work == g.work && h.core == g.core
    && h.entering == g.entering && h.leaving == g.leaving && h.tickets == g.tickets
    && (forall id :: id in h.todo ==> id in g.commands || id in g.requests.Values)
    && (forall id :: id in h.commands ==> id in g.commands)
    && (forall id :: id in h.requests.Values ==> id in g.requests.Values)
  }

  lemma {:induction false} EndedAreRequests(m: map<Byte, nat>, finished: seq<T.Completion>)
    ensures forall id :: id in A.Ended(m, finished) ==> id in m.Values
    ensures forall id :: id in A.Remaining(m, finished).Values ==> id in m.Values
    decreases |finished|
  {
    if finished != [] {
      var rest := m - {finished[0].num};
      EndedAreRequests(rest, finished[1..]);
      forall id | id in rest.Values ensures id in m.Values {
        var q :| q in rest && rest[q] == id;
        assert m[q] == id;
      }
    }
  }

  lemma GiveUpComesOut(j: Joint, k: Joint)
    requires GiveUp(j, k)
    ensures ComesOut(j.gate, k.gate)
  {
    if finished :| A.DrainRequests(j.gate, k.gate, finished) { EndedAreRequests(j.gate.requests, finished); }
  }

  lemma DriveComesOut(g: A.Gate, h: A.Gate, input: G.Input)
    requires A.Drive(g, h, input)
    ensures ComesOut(g, h)
  {
    EndedAreRequests(g.requests, G.React(g.tracker, input).finished);
  }

  lemma OutIsNew(j: Joint, k: Joint)
    requires Over(j) && AI.Ids(k.gate) && ComesOut(j.gate, k.gate)
    ensures NewlyDone(j, k)
  {
    forall id | id in k.gate.todo ensures id !in j.outcome && id in k.gate.pending { TodoIsUnique(k.gate, id); }
  }

  /** All but the relaying of reports, for any step that notes completions. */
  lemma DoneContent(j: Joint, k: Joint)
    requires Content(j) && Known(j) && AI.Ids(k.gate) && ComesOut(j.gate, k.gate) && Extends(j, k)
    requires k.asked == j.asked && k.filed == j.filed && k.reply == j.reply
    ensures Made(k) && Over(k) && Exact(k) && NewlyDone(j, k)
  {
    OutIsNew(j, k);
    DonePreserves(j, k);
    DoneOver(j, k);
    assert Unread(k.gate) == Unread(j.gate);
    ExactKept(j, k);
  }

  lemma GiveUpContent(j: Joint, k: Joint)
    requires Content(j) && Known(j) && AI.Ids(k.gate) && GiveUp(j, k)
    ensures Content(k)
  {
    GiveUpComesOut(j, k);
    DoneContent(j, k);
    GiveUpRelayed(j, k);
  }

  lemma GiveUpRelayed(j: Joint, k: Joint)
    requires Relayed(j) && NewlyDone(j, k) && Extends(j, k) && k.filed == j.filed && k.sys == j.sys
    ensures Relayed(k)
  {}

  /** A report made in this step is the completion of the id its command went out as. */
  lemma NewReport(env: R.Env, j: Joint, k: Joint, input: G.Input, id: nat, i: nat)
    requires AI.Matched(j.gate) && Follows(j) && Placed(j) && Filed(j) && G.Inv(j.sys.gw) && React(env, j, k, input)
    requires i < |G.React(j.gate.tracker, input).finished| && id in j.filed
    requires Concerns(j.filed[id], G.Report(j.gate.tracker.session, G.React(j.gate.tracker, input).finished[i]))
    ensures id in k.outcome && k.outcome[id] == Reported(G.Report(j.gate.tracker.session, G.React(j.gate.tracker, input).finished[i]))
  {
    AT.ReportsKnown(j.gate, k.gate, input);
    var finished := G.React(j.gate.tracker, input).finished;
    var own := j.gate.requests[finished[i].num];
    G.SameKey(j.sys.gw.subs, j.filed[id], j.filed[own]);
    assert id == own == k.gate.todo[i];
    assert CompletionOf(j, k, input, i, k.gate.todo[i]);
  }

  lemma ReportsAdded(env: R.Env, j: Joint, k: Joint, input: G.Input)
    requires Follows(j) && T.Shape(j.sys.gw.t) && React(env, j, k, input)
    ensures k.sys.gw.reports
         == j.sys.gw.reports + G.Reports(j.gate.tracker.session, G.React(j.gate.tracker, input).finished)
  {}

  lemma OldReport(j: Joint, k: Joint, id: nat, r: G.Report)
    requires Relayed(j) && NewlyDone(j, k) && Extends(j, k) && id in j.filed && r in j.sys.gw.reports && Concerns(j.filed[id], r)
    ensures id in k.outcome && k.outcome[id] == Reported(r)
  {}

  /** Every report about `id` made in a step is noted as its completion. */
  ghost predicate NewRelayed(j: Joint, k: Joint, session: U64, finished: seq<T.Completion>, id: nat)
    requires id in j.filed
  {
    forall i :: 0 <= i < |finished| && Concerns(j.filed[id], G.Report(session, finished[i])) ==>
      id in k.outcome && k.outcome[id] == Reported(G.Report(session, finished[i]))
  }

  lemma ThisRelayed(env: R.Env, j: Joint, k: Joint, input: G.Input, id: nat)
    requires AI.Matched(j.gate) && Follows(j) && Placed(j) && Filed(j) && G.Inv(j.sys.gw) && React(env, j, k, input) && id in j.filed
    ensures NewRelayed(j, k, j.gate.tracker.session, G.React(j.gate.tracker, input).finished, id)
  {
    var finished := G.React(j.gate.tracker, input).finished;
    forall i | 0 <= i < |finished| && Concerns(j.filed[id], G.Report(j.gate.tracker.session, finished[i]))
      ensures id in k.outcome && k.outcome[id] == Reported(G.Report(j.gate.tracker.session, finished[i]))
    {
      NewReport(env, j, k, input, id, i);
    }
  }

  lemma BothRelayed(j: Joint, k: Joint, session: U64, finished: seq<T.Completion>, id: nat)
    requires Relayed(j) && NewlyDone(j, k) && Extends(j, k) && k.filed == j.filed && id in j.filed
    requires k.sys.gw.reports == j.sys.gw.reports + G.Reports(session, finished) && NewRelayed(j, k, session, finished, id)
    ensures EachRelayed(k, id)
  {
    forall n | 0 <= n < |k.sys.gw.reports| && Concerns(k.filed[id], k.sys.gw.reports[n])
      ensures id in k.outcome && k.outcome[id] == Reported(k.sys.gw.reports[n])
    {
      if n < |j.sys.gw.reports| {
        OldReport(j, k, id, k.sys.gw.reports[n]);
      } else {
        assert k.sys.gw.reports[n] == G.Report(session, finished[n - |j.sys.gw.reports|]);
      }
    }
  }

  /** Relayed, report by report. */
  ghost predicate EachRelayed(k: Joint, id: nat)
    requires id in k.filed
  {
    forall n :: 0 <= n < |k.sys.gw.reports| && Concerns(k.filed[id], k.sys.gw.reports[n]) ==>
      id in k.outcome && k.outcome[id] == Reported(k.sys.gw.reports[n])
  }

  lemma AllRelayed(k: Joint)
    requires forall id :: id in k.filed ==> EachRelayed(k, id)
    ensures Relayed(k)
  {
    forall id, r | id in k.filed && r in k.sys.gw.reports && Concerns(k.filed[id], r)
      ensures id in k.outcome && k.outcome[id] == Reported(r)
    {
      var n :| 0 <= n < |k.sys.gw.reports| && k.sys.gw.reports[n] == r;
      assert EachRelayed(k, id);
    }
  }

  lemma ReactRelayed(env: R.Env, j: Joint, k: Joint, input: G.Input)
    requires AI.Matched(j.gate) && Follows(j) && Placed(j) && Filed(j) && G.Inv(j.sys.gw) && React(env, j, k, input)
    requires Relayed(j) && NewlyDone(j, k)
    ensures Relayed(k)
  {
    ReportsAdded(env, j, k, input);
    forall id | id in k.filed ensures EachRelayed(k, id) {
      ThisRelayed(env, j, k, input, id);
      BothRelayed(j, k, j.gate.tracker.session, G.React(j.gate.tracker, input).finished, id);
    }
    AllRelayed(k);
  }

  lemma ReactContent(env: R.Env, j: Joint, k: Joint, input: G.Input)
    requires Content(j) && Books(j) && AI.Matched(j.gate) && AI.Ids(k.gate) && G.Inv(j.sys.gw) && React(env, j, k, input)
    ensures Content(k)
  {
    DriveComesOut(j.gate, k.gate, input);
    DoneContent(j, k);
    ReactRelayed(env, j, k, input);
  }

  // ------------------------------------------------------------------- every run

  lemma BusinessContent(j: Joint, k: Joint)
    requires Content(j) && Books(j) && Fixed(j) && AI.Ids(j.gate) && AI.Tickets(k.gate) && Business(j, k)
    ensures Content(k)
  {
    if kind: Byte, args: Bytes :| Accept(j, k, kind, args) {
      AcceptContent(j, k, kind, args);
    } else if t: nat, stopping: bool :| TurnDown(j, k, t, stopping) {
      TurnDownContent(j, k, t, stopping);
    } else if Enqueue(j, k) {
      EnqueueContent(j, k);
    } else {
      SettleContent(j, k);
    }
  }

  lemma ReactorContent(env: R.Env, j: Joint, k: Joint)
    requires Content(j) && Inv(j) && AI.Ids(k.gate) && Reactor(env, j, k)
    ensures Content(k)
  {
    if GiveUp(j, k) {
      GiveUpContent(j, k);
    } else if input: G.Input :| React(env, j, k, input) {
      ReactContent(env, j, k, input);
    } else {
      var now: int :| GoOut(env, j, k, now);
      GoOutContent(env, j, k, now);
    }
  }

  lemma StepContent(env: R.Env, j: Joint, k: Joint)
    requires Content(j) && Inv(j) && Fixed(j) && AI.Ids(k.gate) && AI.Tickets(k.gate) && Step(env, j, k)
    ensures Content(k)
  {
    if Business(j, k) {
      BusinessContent(j, k);
    } else if Reactor(env, j, k) {
      ReactorContent(env, j, k);
    } else if Elsewhere(j, k) {
      RestContent(j, k);
    } else {
      var ev: S.Event :| NodeActs(env, j, k, ev);
      NodeContent(env, j, k, ev);
    }
  }

  lemma {:induction false} RunContent(env: R.Env, states: seq<Joint>)
    requires Run(env, states)
    ensures Content(states[|states| - 1])
  {
    var n := |states| - 1;
    if n == 0 {
      StartContent(states[0]);
    } else {
      RunPrefix(env, states, n);
      RunContent(env, states[..n]);
      RunFixed(env, states[..n]);
      LastStep(env, states);
      StepContent(env, states[n - 1], states[n]);
    }
  }

  /** The tracker reported the command made for the ticket as a success. */
  ghost predicate ReportedSuccess(j: Joint, t: nat) {
    exists id, r :: For(j, id, t) && id in j.filed && r in j.sys.gw.reports && Concerns(j.filed[id], r) && r.done.error.NoError?
  }

  predicate SaysSuccess(o: Outcome) { o.Reported? && o.report.done.error.NoError? }

  lemma SuccessBothWays(j: Joint, t: nat)
    requires Content(j) && Replied(j) && t in j.reply
    ensures SaysSuccess(j.reply[t]) <==> ReportedSuccess(j, t)
  {
    if SaysSuccess(j.reply[t]) {
      var id :| Own(j, t, id, j.reply[t].report);
      assert For(j, id, t) && Concerns(j.filed[id], j.reply[t].report);
    }
    if ReportedSuccess(j, t) {
      var id, r :| For(j, id, t) && id in j.filed && r in j.sys.gw.reports && Concerns(j.filed[id], r) && r.done.error.NoError?;
      assert j.outcome[id] == Reported(r);
      if !AsRefused(j, t) {
        var own :| AsCompleted(j, t, own);
        assert own == id;
      }
    }
  }

  /** In every run, for every ticket answered over MQTT: the answer is exactly the completion
      posted for the ticket's own id, or a rejection of a message that was not translated or
      not taken into the command queue. It says success exactly when the tracker reported
      success for the command that ticket asked for. */
  lemma AnswersAreExact(env: R.Env, states: seq<Joint>, t: nat)
    requires Run(env, states) && t in states[|states| - 1].gate.published
    ensures var j := states[|states| - 1];
            && t in j.reply && (AsRefused(j, t) || exists id :: AsCompleted(j, t, id))
            && (SaysSuccess(j.reply[t]) <==> ReportedSuccess(j, t))
  {
    var j := states[|states| - 1];
    RunInv(env, states);
    RunFixed(env, states);
    RunContent(env, states);
    assert t in Late(j.gate);
    SuccessBothWays(j, t);
  }
}
