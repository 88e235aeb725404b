/** What every step of the gateway's threads keeps. */
module AccountingInv {
  import opened Protocol
  import opened Mailbox
  import opened Accounting
  import Spec = Tracker
  import Sender

  // ----------------------------------------------------------- what tasks carry

  function TicketOf(t: CoreTask): multiset<nat> { if t.Mqtt? then multiset{t.ticket} else multiset{} }
  function IdOf(t: CoreTask): multiset<nat> { if t.Finish? then multiset{t.id} else multiset{} }
  function NormalOf(t: CoreTask): multiset<nat> { if t.Mqtt? || t.Telemetry? || t.Http? then multiset{0} else multiset{} }
  function QueryOf(t: CoreTask): multiset<nat> { if t.QueryDone? then multiset{0} else multiset{} }
  function BarrierOf(t: CoreTask): multiset<nat> { if t.Barrier? then multiset{0} else multiset{} }
  function PublishOf(t: ManageTask): multiset<nat> { if t.Publish? then multiset{t.ticket} else multiset{} }
  function UplinkOf(t: ManageTask): multiset<nat> { if t.Uplink? then multiset{0} else multiset{} }
  function ReloadOf(t: ManageTask): multiset<nat> { if t.Reload? then multiset{0} else multiset{} }

  function WorkTicket(w: Work): multiset<nat> {
    if w.Translating? || w.Publishing? || w.Releasing? then multiset{w.ticket} else multiset{}
  }

  function WorkId(w: Work): multiset<nat> { if w.Submitting? || w.Finishing? then multiset{w.id} else multiset{} }

  function ManagingTicket(m: Managing): multiset<nat> { if m.Sending? || m.Sent? then multiset{m.ticket} else multiset{} }
  function SentTicket(m: Managing): multiset<nat> { if m.Sent? then multiset{m.ticket} else multiset{} }

  function One(b: bool): nat { if b then 1 else 0 }

  // ------------------------------------------------------------------ invariant

  function Outside(g: Gate): multiset<nat> { g.entering + g.leaving }

  function Inside(g: Gate): multiset<nat> {
    Sum(g.core.tasks, TicketOf) + WorkTicket(g.work) + multiset(g.pending.Values)
  }

  function Managed(g: Gate): multiset<nat> { Sum(g.manage.tasks, PublishOf) + ManagingTicket(g.managing) }

  /** Tickets whose credit is taken, wherever they are. */
  function Live(g: Gate): multiset<nat> { Outside(g) + Inside(g) + Managed(g) }

  function Over(g: Gate): multiset<nat> { g.released + g.refused }

  /** The first `n` tickets, each once. */
  ghost predicate Each(all: multiset<nat>, n: nat) { forall t: nat :: all[t] == One(t < n) }

  /** Every ticket ever issued is live, released or refused, and only once. */
  ghost predicate Tickets(g: Gate) { Each(Live(g) + Over(g), g.tickets) && Injective(g.pending) }

  /** The credit counter is the number of live tickets. */
  predicate Credits(g: Gate) { g.admitted == |Live(g)| <= MAX_COMMANDS }

  /** Ids on their way through queue, window and completion. */
  function Carried(g: Gate): multiset<nat> {
    multiset(g.commands) + multiset(g.requests.Values) + multiset(g.todo) + Sum(g.core.tasks, IdOf) + WorkId(g.work)
  }

  /** Each pending id is carried by exactly one thing, and nothing else is carried. */
  ghost predicate Ids(g: Gate) {
    && Carried(g) == multiset(g.pending.Keys)
    && Injective(g.requests)
    && forall id :: id in g.pending ==> id < g.nextId
  }

  predicate CoreRoom(g: Gate) { |Sum(g.core.tasks, NormalOf)| <= CORE_CAPACITY }

  predicate ManageRoom(g: Gate) { |Sum(g.manage.tasks, UplinkOf)| <= MANAGE_CAPACITY }

  /** The query counter is the number of queries queued, running or coming back. */
  predicate Queries(g: Gate) {
    g.queries == |g.lookups.tasks| + One(g.looking) + |Sum(g.core.tasks, QueryOf)| + One(g.work.Asking? || g.work.Counting?)
              <= MAX_QUERIES
  }

  /** The reload flag is up exactly while one reload is somewhere. */
  predicate Reloads(g: Gate) {
    One(g.reload) == One(g.reloading) + |Sum(g.manage.tasks, ReloadOf)| + One(g.managing.Loading?)
  }

  /** While the reactor runs, the requests are the commands in flight. */
  ghost predicate Matched(g: Gate) {
    g.stage == 0 ==> Spec.Valid(g.tracker) && g.requests.Keys == g.tracker.entries.Keys
  }

  predicate Stages(g: Gate) {
    && (g.core.closed <==> g.stage >= 6)
    && (g.manage.closed <==> g.stage >= 7)
    && (g.lookups.closed <==> g.stage >= 5)
    && (g.shut <==> g.stage >= 2)
    && (g.stage >= 2 ==> !g.reloading)
    && (g.todo != [] ==> g.stage == 0 || g.stage == 3)
    && (g.stage >= 4 ==> g.commands == [] && g.requests == map[])
    && (g.stage >= 5 ==> g.passed)
    && (g.stage >= 6 ==> g.lookups.tasks == [] && !g.looking)
    && (g.stage >= 7 ==> g.core.tasks == [] && g.work.Idle?)
    && (g.stage >= 8 ==> g.manage.tasks == [] && g.managing.Free?)
  }

  /** No HTTP request behind a barrier. */
  predicate Behind(q: seq<CoreTask>) { forall i, j :: 0 <= i < j < |q| && q[i].Barrier? ==> !q[j].Http? }

  predicate NoHttp(q: seq<CoreTask>) { forall i :: 0 <= i < |q| ==> !q[i].Http? }

  /** One barrier, posted at stage 4; once it is reached no HTTP request is left. */
  predicate Fence(g: Gate) {
    && One(g.stage >= 4) == |Sum(g.core.tasks, BarrierOf)| + One(g.work.AtBarrier?) + One(g.passed)
    && Behind(g.core.tasks)
    && (g.work.AtBarrier? || g.passed ==> NoHttp(g.core.tasks))
    && (g.passed ==> !g.work.Answering? && !g.work.Asking?)
  }

  /** Credits come back only after a publication, one for one. */
  predicate Published(g: Gate) { g.published == g.released + SentTicket(g.managing) && !g.work.Releasing? }

  ghost predicate Flow(g: Gate) { Tickets(g) && Credits(g) && Ids(g) }

  predicate Order(g: Gate) {
    CoreRoom(g) && ManageRoom(g) && Queries(g) && Reloads(g) && Stages(g) && Fence(g) && Published(g)
  }

  ghost predicate Inv(g: Gate) { Flow(g) && Order(g) && Matched(g) }

  // ------------------------------------------------------------ room in mailboxes

  lemma {:induction false} CoreCount(q: seq<CoreTask>)
    ensures |q| == |Sum(q, NormalOf)| + |Sum(q, IdOf)| + |Sum(q, QueryOf)| + |Sum(q, BarrierOf)|
  {
    if q != [] { CoreCount(q[1..]); }
  }

  lemma {:induction false} ManageCount(q: seq<ManageTask>)
    ensures |q| == |Sum(q, UplinkOf)| + |Sum(q, PublishOf)| + |Sum(q, ReloadOf)|
  {
    if q != [] { ManageCount(q[1..]); }
  }

  /** Credits bound the pending ids, and with them everything that carries one. */
  lemma PendingBound(g: Gate)
    requires Tickets(g) && Credits(g) && Ids(g)
    ensures |Carried(g)| == |g.pending.Keys| == |multiset(g.pending.Values)|
    ensures |g.pending.Keys| + |WorkTicket(g.work)| + |Sum(g.manage.tasks, PublishOf)| + |ManagingTicket(g.managing)| <= MAX_COMMANDS
  {
    ManyValues(g.pending);
  }

  /** A command completion, a query completion and the barrier always find room in an
      open core mailbox. */
  lemma CoreHasRoom(g: Gate)
    requires Tickets(g) && Credits(g) && Ids(g) && CoreRoom(g) && Queries(g) && Fence(g)
    ensures |g.core.tasks| < CORE_CAPACITY + CORE_RESERVE
  {
    PendingBound(g);
    CoreCount(g.core.tasks);
  }

  /** A terminal publication or a reload always finds room in an open management mailbox. */
  lemma ManageHasRoom(g: Gate)
    requires Tickets(g) && Credits(g) && Ids(g) && ManageRoom(g) && Reloads(g)
    ensures |g.manage.tasks| < MANAGE_CAPACITY + MANAGE_RESERVE
  {
    PendingBound(g);
    ManageCount(g.manage.tasks);
  }

  /** The command queue has room for the id being submitted. */
  lemma CommandsHaveRoom(g: Gate)
    requires Tickets(g) && Credits(g) && Ids(g) && g.work.Submitting?
    ensures |g.commands| < MAX_COMMANDS
  {
    PendingBound(g);
  }
}
