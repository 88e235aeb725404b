/** What the accounting guarantees in every run, up to and including shutdown. */
module AccountingTheorems {
  import opened Protocol
  import opened Mailbox
  import opened Accounting
  import opened AccountingInv
  import opened AccountingMoves
  import opened AccountingSteps
  import Spec = Tracker
  import Sender

  /** An interleaving of the threads' steps from start-up. */
  ghost predicate Run(states: seq<Gate>) {
    && states != [] && states[0] == Start()
    && forall i :: 0 < i < |states| ==> Step(states[i - 1], states[i])
  }

  lemma {:induction false} RunInv(states: seq<Gate>)
    requires Run(states)
    ensures Inv(states[|states| - 1])
  {
    var n := |states| - 1;
    if n == 0 {
      StartInv(states[0]);
    } else {
      RunInv(states[..n]);
      StepInv(states[n - 1], states[n]);
    }
  }

  // -------------------------------------------------------- completion reserve

  /** No completion, publication, reload or query is waiting to be posted into a mailbox
      that would refuse it, and the command queue has room for the id in hand. */
  predicate NothingRefused(g: Gate) {
    && (g.todo != [] ==> Takes(g.core, CORE_CAPACITY + CORE_RESERVE))
    && (g.looking ==> Takes(g.core, CORE_CAPACITY + CORE_RESERVE))
    && (g.stage == 3 ==> Takes(g.core, CORE_CAPACITY + CORE_RESERVE))
    && (g.work.Publishing? ==> Takes(g.manage, MANAGE_CAPACITY + MANAGE_RESERVE))
    && (g.reloading ==> Takes(g.manage, MANAGE_CAPACITY + MANAGE_RESERVE))
    && (g.work.Asking? ==> Takes(g.lookups, MAX_QUERIES))
    && (g.work.Submitting? ==> |g.commands| < MAX_COMMANDS)
  }

  lemma RoomForAll(g: Gate)
    requires Flow(g) && Order(g)
    ensures |g.core.tasks| < CORE_CAPACITY + CORE_RESERVE
    ensures |g.manage.tasks| < MANAGE_CAPACITY + MANAGE_RESERVE
    ensures g.work.Submitting? ==> |g.commands| < MAX_COMMANDS
    ensures g.work.Asking? ==> |g.lookups.tasks| < MAX_QUERIES
  {
    CoreHasRoom(g);
    ManageHasRoom(g);
    if g.work.Submitting? { CommandsHaveRoom(g); }
  }

  lemma OpenForAll(g: Gate)
    requires Stages(g) && Fence(g)
    ensures g.todo != [] || g.looking || g.stage == 3 ==> !g.core.closed
    ensures g.work.Publishing? || g.reloading ==> !g.manage.closed
    ensures g.work.Asking? ==> !g.lookups.closed
  {}

  /** The completion reserve is sufficient, under every interleaving and through every
      stage of the shutdown. */
  lemma ReserveSuffices(states: seq<Gate>)
    requires Run(states)
    ensures NothingRefused(states[|states| - 1])
  {
    var g := states[|states| - 1];
    RunInv(states);
    RoomForAll(g);
    OpenForAll(g);
  }

  // ------------------------------------------------------------ terminal answers

  /** Whatever became of a ticket so far became of it once, and a credit comes back only
      for a published answer or a refused message. */
  ghost predicate OnceAtMost(g: Gate) {
    forall t: nat ::
      && g.published[t] <= 1 && g.released[t] <= g.published[t]
      && g.published[t] + g.refused[t] <= One(t < g.tickets)
  }

  lemma PublishedOnce(g: Gate, t: nat)
    requires Tickets(g) && Published(g)
    ensures g.published[t] + g.refused[t] <= One(t < g.tickets)
    ensures g.released[t] <= g.published[t]
  {
    assert (Live(g) + Over(g))[t] == One(t < g.tickets);
    assert Live(g)[t] >= Managed(g)[t] >= ManagingTicket(g.managing)[t] >= SentTicket(g.managing)[t];
  }

  lemma InvOnce(g: Gate)
    requires Tickets(g) && Published(g)
    ensures OnceAtMost(g)
  {
    forall t: nat
      ensures g.published[t] <= 1 && g.released[t] <= g.published[t]
      ensures g.published[t] + g.refused[t] <= One(t < g.tickets)
    {
      PublishedOnce(g, t);
    }
  }

  lemma AtMostOneTerminal(states: seq<Gate>)
    requires Run(states)
    ensures OnceAtMost(states[|states| - 1])
  {
    RunInv(states);
    InvOnce(states[|states| - 1]);
  }

  /** Shutdown is complete and no callback is still inside `mqttMessage`. */
  predicate Finale(g: Gate) { g.stage == 8 && g.entering == multiset{} && g.leaving == multiset{} }

  lemma NothingLeft(g: Gate)
    requires Flow(g) && Order(g) && Finale(g)
    ensures Live(g) == multiset{} && g.pending == map[] && g.admitted == 0
  {
    assert Carried(g) == multiset{};
    assert |multiset(g.pending.Keys)| == |g.pending.Keys|;
    assert g.pending == map[];
    assert g.pending.Values == {};
  }

  /** In the end every message that took a credit either was refused at the door or had
      exactly one answer published and its credit released, and no credit is missing. */
  lemma ExactlyOneTerminal(states: seq<Gate>, t: nat)
    requires Run(states) && Finale(states[|states| - 1]) && t < states[|states| - 1].tickets
    ensures var g := states[|states| - 1];
            && g.admitted == 0 && g.published[t] == g.released[t] && g.published[t] + g.refused[t] == 1
  {
    var g := states[|states| - 1];
    RunInv(states);
    NothingLeft(g);
    assert (Live(g) + Over(g))[t] == One(t < g.tickets);
    assert g.published == g.released;
  }

  // ------------------------------------------------------------------- at rest

  /** While the reactor runs, the requests are exactly the commands in flight, at most a
      window of them, and whatever is queued or finishing is pending, once. */
  ghost predicate InStep(g: Gate) {
    && (g.stage == 0 ==> g.requests.Keys == g.tracker.entries.Keys && |g.requests| <= WINDOW)
    && (forall id :: multiset(g.commands)[id] + multiset(g.todo)[id] + WorkId(g.work)[id] <= One(id in g.pending))
    && |g.pending| <= g.admitted <= MAX_COMMANDS
  }

  lemma CarriedIsPending(g: Gate, id: nat)
    requires Ids(g)
    ensures multiset(g.commands)[id] + multiset(g.todo)[id] + WorkId(g.work)[id] <= One(id in g.pending)
  {
    assert Carried(g)[id] == multiset(g.pending.Keys)[id];
    assert Carried(g)[id] >= multiset(g.commands)[id] + multiset(g.todo)[id] + WorkId(g.work)[id];
  }

  lemma RequestsFit(g: Gate)
    requires Matched(g) && g.stage == 0
    ensures g.requests.Keys == g.tracker.entries.Keys && |g.requests| <= WINDOW
  {
    assert |g.requests| == |g.requests.Keys| && |g.tracker.entries| == |g.tracker.entries.Keys|;
  }

  lemma PendingFits(g: Gate)
    requires Flow(g)
    ensures |g.pending| <= g.admitted <= MAX_COMMANDS
  {
    PendingBound(g);
    assert |g.pending| == |g.pending.Keys|;
  }

  lemma InvInStep(g: Gate)
    requires Flow(g) && Matched(g)
    ensures InStep(g)
  {
    if g.stage == 0 { RequestsFit(g); }
    PendingFits(g);
    forall id: nat
      ensures multiset(g.commands)[id] + multiset(g.todo)[id] + WorkId(g.work)[id] <= One(id in g.pending)
    {
      CarriedIsPending(g, id);
    }
  }

  lemma RequestsAreInFlight(states: seq<Gate>)
    requires Run(states)
    ensures InStep(states[|states| - 1])
  {
    RunInv(states);
    InvInStep(states[|states| - 1]);
  }

  /** Whatever the tracker reports in a step goes to the ids its commands came from, one
      completion each, in the order of the report. */
  lemma ReportsReachTheirRequests(states: seq<Gate>, h: Gate, input: Sender.Input)
    requires Run(states) && Drive(states[|states| - 1], h, input)
    ensures var g := states[|states| - 1];
            var finished := Sender.React(g.tracker, input).finished;
            && |h.todo| == |finished|
            && forall i :: 0 <= i < |finished| ==> finished[i].num in g.requests && h.todo[i] == g.requests[finished[i].num]
  {
    var g := states[|states| - 1];
    RunInv(states);
    ReportsKnown(g, h, input);
  }

  lemma ReportsKnown(g: Gate, h: Gate, input: Sender.Input)
    requires Matched(g) && Drive(g, h, input)
    ensures var finished := Sender.React(g.tracker, input).finished;
            && |h.todo| == |finished|
            && forall i :: 0 <= i < |finished| ==> finished[i].num in g.requests && h.todo[i] == g.requests[finished[i].num]
  {
    var finished := Sender.React(g.tracker, input).finished;
    Sender.ReactKeeps(g.tracker, input);
    assert forall i :: 0 <= i < |finished| ==> finished[i].num in g.requests.Keys;
    EndedInOrder(g.requests, finished);
  }
}
