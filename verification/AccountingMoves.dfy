/** How each part of the accounting invariant survives a change of the fields it reads.
    `g` and `h` are the states before and after. */
module AccountingMoves {
  import opened Protocol
  import opened Mailbox
  import opened Accounting
  import opened AccountingInv
  import Spec = Tracker

  // ------------------------------------------------------------------ multisets

  lemma Taken(a: multiset<nat>, t: nat)
    requires t in a
    ensures a == (a - multiset{t}) + multiset{t}
  {}

  /** A sum of three with something more in one of them. */
  lemma More(a: multiset<nat>, b: multiset<nat>, c: multiset<nat>, x: multiset<nat>)
    ensures (a + x) + b + c == a + b + c + x
    ensures a + (b + x) + c == a + b + c + x
    ensures a + b + (c + x) == a + b + c + x
  {}

  /** What one part loses another gains. */
  lemma Handover(a: multiset<nat>, b: multiset<nat>, c: multiset<nat>, a1: multiset<nat>, b1: multiset<nat>, x: multiset<nat>)
    requires a == a1 + x && b1 == b + x
    ensures a1 + b1 + c == a + b + c
    ensures b1 + a1 + c == b + a + c
    ensures c + a1 + b1 == c + a + b
    ensures c + b1 + a1 == c + b + a
    ensures a1 + c + b1 == a + c + b
    ensures b1 + c + a1 == b + c + a
  {}

  // ---------------------------------------------------------- tickets and credits

  lemma EachMore(all: multiset<nat>, n: nat)
    requires Each(all, n)
    ensures Each(all + multiset{n}, n + 1)
  {}

  /** Tickets change place, none is gained or lost. */
  lemma TicketsMoved(g: Gate, h: Gate)
    requires Tickets(g) && Credits(g) && Live(h) == Live(g) && Injective(h.pending) && SameCounts(g, h)
    ensures Tickets(h) && Credits(h)
  {}

  /** A ticket's credit is given back. */
  lemma TicketBack(g: Gate, h: Gate, t: nat)
    requires Tickets(g) && Credits(g) && Live(g) == Live(h) + multiset{t} && Over(h) == Over(g) + multiset{t}
    requires h.pending == g.pending && h.tickets == g.tickets && h.admitted == g.admitted - 1
    ensures Tickets(h) && Credits(h)
  {
    assert Live(h) + Over(h) == Live(g) + Over(g);
  }

  predicate SameInside(g: Gate, h: Gate) { h.core.tasks == g.core.tasks && h.work == g.work && h.pending == g.pending }
  predicate SameManaged(g: Gate, h: Gate) { h.manage.tasks == g.manage.tasks && h.managing == g.managing }

  lemma TicketsSame(g: Gate, h: Gate)
    requires Tickets(g) && Credits(g) && SameCounts(g, h)
    requires SameOutside(g, h) && SameInside(g, h) && SameManaged(g, h)
    ensures Tickets(h) && Credits(h)
  {}

  lemma TicketArrived(g: Gate, h: Gate)
    requires Tickets(g) && Credits(g) && g.admitted < MAX_COMMANDS
    requires h.tickets == g.tickets + 1 && h.admitted == g.admitted + 1 && h.entering == g.entering + multiset{g.tickets}
    requires h.leaving == g.leaving && h.released == g.released && h.refused == g.refused && SameInside(g, h) && SameManaged(g, h)
    ensures Tickets(h) && Credits(h)
  {
    EachMore(Live(g) + Over(g), g.tickets);
    assert Live(h) == Live(g) + multiset{g.tickets};
    assert Live(h) + Over(h) == Live(g) + Over(g) + multiset{g.tickets};
  }

  lemma InsidePosted(g: Gate, h: Gate, task: CoreTask)
    requires h.core.tasks == g.core.tasks + [task] && h.work == g.work && h.pending == g.pending
    ensures Inside(h) == Inside(g) + TicketOf(task)
  {
    SumSnoc(g.core.tasks, task, TicketOf);
    More(Sum(g.core.tasks, TicketOf), WorkTicket(g.work), multiset(g.pending.Values), TicketOf(task));
  }

  lemma ManagedPosted(g: Gate, h: Gate, task: ManageTask)
    requires h.manage.tasks == g.manage.tasks + [task] && h.managing == g.managing
    ensures Managed(h) == Managed(g) + PublishOf(task)
  {
    SumSnoc(g.manage.tasks, task, PublishOf);
    More(Sum(g.manage.tasks, PublishOf), ManagingTicket(g.managing), multiset{}, PublishOf(task));
  }

  lemma OutsideLess(g: Gate, h: Gate, t: nat)
    requires t in g.entering && h.entering == g.entering - multiset{t} && h.leaving == g.leaving
    ensures Outside(g) == Outside(h) + multiset{t}
  {
    Taken(g.entering, t);
    More(h.entering, h.leaving, multiset{}, multiset{t});
  }

  /** A task without a ticket is posted to the core. */
  lemma TicketsCorePost(g: Gate, h: Gate, task: CoreTask)
    requires Tickets(g) && Credits(g) && SameCounts(g, h) && SameOutside(g, h) && SameManaged(g, h)
    requires h.core.tasks == g.core.tasks + [task] && h.work == g.work && h.pending == g.pending && !task.Mqtt?
    ensures Tickets(h) && Credits(h)
  {
    InsidePosted(g, h, task);
    TicketsMoved(g, h);
  }

  lemma TicketEntered(g: Gate, h: Gate, t: nat)
    requires Tickets(g) && Credits(g) && SameCounts(g, h) && SameManaged(g, h)
    requires t in g.entering && h.entering == g.entering - multiset{t} && h.leaving == g.leaving
    requires h.core.tasks == g.core.tasks + [Mqtt(t)] && h.work == g.work && h.pending == g.pending
    ensures Tickets(h) && Credits(h)
  {
    InsidePosted(g, h, Mqtt(t));
    OutsideLess(g, h, t);
    Handover(Outside(g), Inside(g), Managed(g), Outside(h), Inside(h), multiset{t});
    TicketsMoved(g, h);
  }

  lemma TicketTurnedAway(g: Gate, h: Gate, t: nat)
    requires Tickets(g) && Credits(g) && SameCounts(g, h) && SameInside(g, h) && SameManaged(g, h)
    requires t in g.entering && h.entering == g.entering - multiset{t} && h.leaving == g.leaving + multiset{t}
    ensures Tickets(h) && Credits(h)
  {
    Taken(g.entering, t);
    Handover(g.entering, g.leaving, multiset{}, h.entering, h.leaving, multiset{t});
    TicketsMoved(g, h);
  }

  lemma TicketLeft(g: Gate, h: Gate, t: nat)
    requires Tickets(g) && Credits(g) && SameInside(g, h) && SameManaged(g, h)
    requires t in g.leaving && h.leaving == g.leaving - multiset{t} && h.entering == g.entering
    requires h.refused == g.refused + multiset{t} && h.released == g.released
    requires h.tickets == g.tickets && h.admitted == g.admitted - 1
    ensures Tickets(h) && Credits(h)
  {
    Taken(g.leaving, t);
    More(h.entering, h.leaving, multiset{}, multiset{t});
    assert Outside(g) == Outside(h) + multiset{t};
    More(Outside(h), Inside(h), Managed(h), multiset{t});
    More(g.released, g.refused, multiset{}, multiset{t});
    TicketBack(g, h, t);
  }

  /** The business thread takes its next task. */
  lemma TicketBegun(g: Gate, h: Gate)
    requires Tickets(g) && Credits(g) && SameCounts(g, h) && SameOutside(g, h) && SameManaged(g, h)
    requires g.work.Idle? && g.core.tasks != [] && h.pending == g.pending
    requires h.core.tasks == g.core.tasks[1..] && h.work == Opened(g.core.tasks[0])
    ensures Tickets(h) && Credits(h)
  {
    InsideBegun(g, h);
    TicketsMoved(g, h);
  }

  lemma InsideBegun(g: Gate, h: Gate)
    requires g.work.Idle? && g.core.tasks != [] && h.pending == g.pending
    requires h.core.tasks == g.core.tasks[1..] && h.work == Opened(g.core.tasks[0])
    ensures Inside(h) == Inside(g)
  {
    OpenedCarries(g.core.tasks[0]);
    SumHead(g.core.tasks, TicketOf);
    Handover(Sum(g.core.tasks, TicketOf), WorkTicket(g.work), multiset(g.pending.Values),
             Sum(h.core.tasks, TicketOf), WorkTicket(h.work), TicketOf(g.core.tasks[0]));
  }

  /** A task's ticket and id go with it into the work. */
  lemma OpenedCarries(task: CoreTask)
    ensures WorkTicket(Opened(task)) == TicketOf(task) && WorkId(Opened(task)) == IdOf(task)
  {}

  /** It goes on without touching a ticket. */
  lemma TicketWorked(g: Gate, h: Gate)
    requires Tickets(g) && Credits(g) && SameCounts(g, h) && SameOutside(g, h) && SameManaged(g, h)
    requires h.core.tasks == g.core.tasks && h.pending == g.pending && WorkTicket(h.work) == WorkTicket(g.work)
    ensures Tickets(h) && Credits(h)
  {
    TicketsMoved(g, h);
  }

  lemma WorkNotPending(g: Gate, t: nat)
    requires Tickets(g) && WorkTicket(g.work) == multiset{t}
    ensures t !in g.pending.Values
  {
    var x := Sum(g.core.tasks, TicketOf) + WorkTicket(g.work) + multiset(g.pending.Values);
    assert (Live(g) + Over(g))[t] == One(t < g.tickets);
    assert x[t] <= 1;
  }

  lemma TicketFiled(g: Gate, h: Gate, id: nat)
    requires Tickets(g) && Credits(g) && SameCounts(g, h) && SameOutside(g, h) && SameManaged(g, h)
    requires g.work.Translating? && h.work == Submitting(id) && h.core.tasks == g.core.tasks
    requires id !in g.pending && h.pending == g.pending[id := g.work.ticket]
    ensures Tickets(h) && Credits(h)
  {
    var t := g.work.ticket;
    WorkNotPending(g, t);
    PutValues(g.pending, id, t);
    ValuesMore(g.pending.Values, t);
    Handover(WorkTicket(g.work), multiset(g.pending.Values), Sum(g.core.tasks, TicketOf),
             WorkTicket(h.work), multiset(h.pending.Values), multiset{t});
    TicketsMoved(g, h);
  }

  lemma ValuesMore(s: set<nat>, t: nat)
    requires t !in s
    ensures multiset(s + {t}) == multiset(s) + multiset{t}
  {}

  lemma ValuesLess(s: set<nat>, t: nat)
    requires t in s
    ensures multiset(s) == multiset(s - {t}) + multiset{t}
  {}

  lemma TicketErased(g: Gate, h: Gate, id: nat)
    requires Tickets(g) && Credits(g) && SameCounts(g, h) && SameOutside(g, h) && SameManaged(g, h)
    requires id in g.pending && h.pending == g.pending - {id} && h.work == Publishing(g.pending[id])
    requires WorkTicket(g.work) == multiset{} && h.core.tasks == g.core.tasks
    ensures Tickets(h) && Credits(h)
  {
    var t := g.pending[id];
    DropValues(g.pending, id);
    ValuesLess(g.pending.Values, t);
    Handover(multiset(g.pending.Values), WorkTicket(g.work), Sum(g.core.tasks, TicketOf),
             multiset(h.pending.Values), WorkTicket(h.work), multiset{t});
    TicketsMoved(g, h);
  }

  lemma TicketPosted(g: Gate, h: Gate)
    requires Tickets(g) && Credits(g) && SameCounts(g, h) && SameOutside(g, h)
    requires g.work.Publishing? && h.work.Idle? && h.core.tasks == g.core.tasks && h.pending == g.pending
    requires h.manage.tasks == g.manage.tasks + [Publish(g.work.ticket)] && h.managing == g.managing
    ensures Tickets(h) && Credits(h)
  {
    var x := multiset{g.work.ticket};
    ManagedPosted(g, h, Publish(g.work.ticket));
    More(Sum(h.core.tasks, TicketOf), WorkTicket(h.work), multiset(h.pending.Values), x);
    assert Inside(g) == Inside(h) + x;
    Handover(Inside(g), Managed(g), Outside(g), Inside(h), Managed(h), x);
    TicketsMoved(g, h);
  }

  lemma TicketsManagePost(g: Gate, h: Gate, task: ManageTask)
    requires Tickets(g) && Credits(g) && SameCounts(g, h) && SameOutside(g, h) && SameInside(g, h)
    requires h.manage.tasks == g.manage.tasks + [task] && h.managing == g.managing && !task.Publish?
    ensures Tickets(h) && Credits(h)
  {
    ManagedPosted(g, h, task);
    TicketsMoved(g, h);
  }

  lemma TicketManaged(g: Gate, h: Gate)
    requires Tickets(g) && Credits(g) && SameCounts(g, h) && SameOutside(g, h) && SameInside(g, h)
    requires g.managing.Free? && g.manage.tasks != []
    requires h.manage.tasks == g.manage.tasks[1..] && h.managing == Handling(g.manage.tasks[0])
    ensures Tickets(h) && Credits(h)
  {
    ManagedBegun(g, h);
    TicketsMoved(g, h);
  }

  lemma ManagedBegun(g: Gate, h: Gate)
    requires g.managing.Free? && g.manage.tasks != []
    requires h.manage.tasks == g.manage.tasks[1..] && h.managing == Handling(g.manage.tasks[0])
    ensures Managed(h) == Managed(g)
  {
    var task := g.manage.tasks[0];
    HandlingCarries(task);
    SumHead(g.manage.tasks, PublishOf);
    Handover(Sum(g.manage.tasks, PublishOf), ManagingTicket(g.managing), multiset{},
             Sum(h.manage.tasks, PublishOf), ManagingTicket(h.managing), PublishOf(task));
  }

  lemma HandlingCarries(task: ManageTask)
    ensures ManagingTicket(Handling(task)) == PublishOf(task)
  {}

  lemma TicketManaging(g: Gate, h: Gate)
    requires Tickets(g) && Credits(g) && SameCounts(g, h) && SameOutside(g, h) && SameInside(g, h)
    requires h.manage.tasks == g.manage.tasks && ManagingTicket(h.managing) == ManagingTicket(g.managing)
    ensures Tickets(h) && Credits(h)
  {
    TicketsMoved(g, h);
  }

  lemma TicketReleased(g: Gate, h: Gate)
    requires Tickets(g) && Credits(g) && SameOutside(g, h) && SameInside(g, h)
    requires g.managing.Sent? && h.managing.Free? && h.manage.tasks == g.manage.tasks
    requires h.released == g.released + multiset{g.managing.ticket} && h.refused == g.refused
    requires h.tickets == g.tickets && h.admitted == g.admitted - 1
    ensures Tickets(h) && Credits(h)
  {
    var x := multiset{g.managing.ticket};
    More(Sum(h.manage.tasks, PublishOf), ManagingTicket(h.managing), multiset{}, x);
    assert Managed(g) == Managed(h) + x;
    More(Outside(h), Inside(h), Managed(h), x);
    More(g.released, g.refused, multiset{}, x);
    TicketBack(g, h, g.managing.ticket);
  }

  // ------------------------------------------------------------------------ ids

  /** A task is posted to the core; if it is a completion, its id comes from the head of
      the list of completions to post. */
  lemma IdsCorePost(g: Gate, h: Gate, task: CoreTask)
    requires Ids(g) && SameNames(g, h) && h.requests == g.requests && h.commands == g.commands && h.work == g.work
    requires h.core.tasks == g.core.tasks + [task]
    requires if task.Finish? then g.todo == [task.id] + h.todo else h.todo == g.todo
    ensures Ids(h)
  {
    PostCarried(g, h, task);
  }

  lemma PostCarried(g: Gate, h: Gate, task: CoreTask)
    requires h.requests == g.requests && h.commands == g.commands && h.work == g.work
    requires h.core.tasks == g.core.tasks + [task]
    requires if task.Finish? then g.todo == [task.id] + h.todo else h.todo == g.todo
    ensures Carried(h) == Carried(g)
  {
    SumSnoc(g.core.tasks, task, IdOf);
    if task.Finish? { assert multiset(g.todo) == multiset(h.todo) + multiset{task.id}; }
    var a := multiset(g.commands) + multiset(g.requests.Values);
    Passed(a, multiset(g.todo), multiset(h.todo), Sum(g.core.tasks, IdOf), Sum(h.core.tasks, IdOf), WorkId(g.work), IdOf(task));
  }

  lemma Passed(a: multiset<nat>, b: multiset<nat>, b1: multiset<nat>, c: multiset<nat>, c1: multiset<nat>, d: multiset<nat>, x: multiset<nat>)
    requires b == b1 + x && c1 == c + x
    ensures a + b1 + c1 + d == a + b + c + d
  {}

  lemma IdsBegun(g: Gate, h: Gate)
    requires Ids(g) && SameNames(g, h) && h.requests == g.requests && h.commands == g.commands && h.todo == g.todo
    requires g.work.Idle? && g.core.tasks != []
    requires h.core.tasks == g.core.tasks[1..] && h.work == Opened(g.core.tasks[0])
    ensures Ids(h)
  {
    OpenedCarries(g.core.tasks[0]);
    SumHead(g.core.tasks, IdOf);
    var a := multiset(g.commands) + multiset(g.requests.Values) + multiset(g.todo);
    Handover(Sum(g.core.tasks, IdOf), WorkId(g.work), a, Sum(h.core.tasks, IdOf), WorkId(h.work), IdOf(g.core.tasks[0]));
    assert Carried(h) == Carried(g);
  }

  predicate SameTransit(g: Gate, h: Gate) {
    h.requests == g.requests && h.todo == g.todo && h.core.tasks == g.core.tasks
  }

  lemma IdsWorked(g: Gate, h: Gate)
    requires Ids(g) && SameNames(g, h) && SameTransit(g, h) && h.commands == g.commands && WorkId(h.work) == WorkId(g.work)
    ensures Ids(h)
  {}

  lemma IdsFiled(g: Gate, h: Gate)
    requires Ids(g) && SameTransit(g, h) && h.commands == g.commands && WorkId(g.work) == multiset{}
    requires h.nextId == g.nextId + 1 && h.pending.Keys == g.pending.Keys + {g.nextId} && h.work == Submitting(g.nextId)
    ensures Ids(h)
  {
    ValuesMore(g.pending.Keys, g.nextId);
    assert Carried(h) == Carried(g) + multiset{g.nextId};
  }

  lemma WorkIsPending(g: Gate)
    requires Ids(g) && (g.work.Submitting? || g.work.Finishing?)
    ensures g.work.id in g.pending
  {
    assert g.work.id in Carried(g);
  }

  lemma IdsErased(g: Gate, h: Gate)
    requires Ids(g) && SameTransit(g, h) && h.commands == g.commands && (g.work.Submitting? || g.work.Finishing?)
    requires h.nextId == g.nextId && h.pending == g.pending - {g.work.id} && WorkId(h.work) == multiset{}
    ensures Ids(h)
  {
    var x := multiset{g.work.id};
    WorkIsPending(g);
    ValuesLess(g.pending.Keys, g.work.id);
    KeysLess(g.pending, g.work.id);
    CarriedLess(g, h);
    Cancel(Carried(h), multiset(h.pending.Keys), x);
  }

  lemma CarriedLess(g: Gate, h: Gate)
    requires SameTransit(g, h) && h.commands == g.commands && (g.work.Submitting? || g.work.Finishing?)
    requires WorkId(h.work) == multiset{}
    ensures Carried(g) == Carried(h) + multiset{g.work.id}
  {}

  lemma KeysLess(m: map<nat, nat>, id: nat)
    requires id in m
    ensures (m - {id}).Keys == m.Keys - {id}
  {}

  lemma Cancel(a: multiset<nat>, b: multiset<nat>, x: multiset<nat>)
    requires a + x == b + x
    ensures a == b
  {
    assert a == (a + x) - x && b == (b + x) - x;
  }

  lemma IdsSubmitted(g: Gate, h: Gate)
    requires Ids(g) && SameNames(g, h) && SameTransit(g, h) && g.work.Submitting? && h.work.Idle?
    requires h.commands == g.commands + [g.work.id]
    ensures Ids(h)
  {
    assert multiset(h.commands) == multiset(g.commands) + multiset{g.work.id};
    var a := multiset(g.requests.Values) + multiset(g.todo) + Sum(g.core.tasks, IdOf);
    Handover(WorkId(g.work), multiset(g.commands), a, WorkId(h.work), multiset(h.commands), multiset{g.work.id});
    assert Carried(g) == multiset(g.commands) + a + WorkId(g.work);
    assert Carried(h) == multiset(h.commands) + a + WorkId(h.work);
  }

  /** The reactor takes a command out of the queue, to reject it. */
  lemma IdsPulledAside(g: Gate, h: Gate)
    requires Ids(g) && SameNames(g, h) && h.requests == g.requests && h.core.tasks == g.core.tasks && h.work == g.work
    requires g.commands != [] && h.commands == g.commands[1..] && g.todo == [] && h.todo == [g.commands[0]]
    ensures Ids(h)
  {
    assert g.commands == [g.commands[0]] + h.commands;
    assert multiset(g.commands) == multiset(h.commands) + multiset{g.commands[0]};
    Handover(multiset(g.commands), multiset(g.todo), multiset(g.requests.Values),
             multiset(h.commands), multiset(h.todo), multiset{g.commands[0]});
    assert Carried(h) == Carried(g);
  }

  lemma RequestNew(g: Gate)
    requires Ids(g) && g.commands != []
    ensures g.commands[0] !in g.requests.Values
  {
    var id := g.commands[0];
    assert multiset(g.commands)[id] >= 1;
    assert Carried(g)[id] <= 1;
    assert Carried(g)[id] >= multiset(g.commands)[id] + multiset(g.requests.Values)[id];
  }

  /** Or to put it into the window. */
  lemma IdsPulledIn(g: Gate, h: Gate, k: Byte)
    requires Ids(g) && SameNames(g, h) && h.todo == g.todo && h.core.tasks == g.core.tasks && h.work == g.work
    requires g.commands != [] && h.commands == g.commands[1..]
    requires k !in g.requests && h.requests == g.requests[k := g.commands[0]]
    ensures Ids(h)
  {
    var id := g.commands[0];
    RequestNew(g);
    PutValues(g.requests, k, id);
    ValuesMore(g.requests.Values, id);
    assert g.commands == [id] + h.commands;
    assert multiset(g.commands) == multiset(h.commands) + multiset{id};
    Handover(multiset(g.commands), multiset(g.requests.Values), multiset(g.todo),
             multiset(h.commands), multiset(h.requests.Values), multiset{id});
    assert Carried(h) == Carried(g);
  }

  /** Ended requests become completions to post, the others stay. */
  lemma IdsHarvested(g: Gate, h: Gate)
    requires Ids(g) && SameNames(g, h) && h.commands == g.commands && h.core.tasks == g.core.tasks && h.work == g.work
    requires g.todo == [] && Injective(h.requests)
    requires multiset(g.requests.Values) == multiset(h.requests.Values) + multiset(h.todo)
    ensures Ids(h)
  {
    Handover(multiset(g.requests.Values), multiset(g.todo), multiset(g.commands),
             multiset(h.requests.Values), multiset(h.todo), multiset(h.todo));
    assert Carried(h) == Carried(g);
  }

  lemma {:induction false} Harvest(m: map<Byte, nat>, finished: seq<Spec.Completion>)
    requires Injective(m)
    ensures Injective(Remaining(m, finished))
    ensures multiset(m.Values) == multiset(Remaining(m, finished).Values) + multiset(Ended(m, finished))
    decreases |finished|
  {
    if finished != [] {
      var q := finished[0].num;
      if q in m {
        DropValues(m, q);
        ValuesLess(m.Values, m[q]);
      } else {
        assert m - {q} == m;
      }
      Harvest(m - {q}, finished[1..]);
    }
  }

  /** The completion of number q goes to the id filed under q, in the order reported. */
  lemma {:induction false} EndedInOrder(m: map<Byte, nat>, finished: seq<Spec.Completion>)
    requires Spec.Increasing(finished) && forall i :: 0 <= i < |finished| ==> finished[i].num in m
    ensures |Ended(m, finished)| == |finished|
    ensures forall i :: 0 <= i < |finished| ==> Ended(m, finished)[i] == m[finished[i].num]
    decreases |finished|
  {
    if finished != [] {
      var q := finished[0].num;
      assert forall i :: 0 <= i < |finished| - 1 ==> finished[1..][i] == finished[i + 1];
      EndedInOrder(m - {q}, finished[1..]);
    }
  }

  lemma {:induction false} RemainingKeys(m: map<Byte, nat>, finished: seq<Spec.Completion>)
    ensures forall q :: q in Remaining(m, finished) <==> q in m && !Spec.Reported(finished, q)
    decreases |finished|
  {
    if finished != [] {
      RemainingKeys(m - {finished[0].num}, finished[1..]);
      assert forall i :: 0 <= i < |finished| - 1 ==> finished[1..][i] == finished[i + 1];
      forall q | q in m
        ensures Spec.Reported(finished, q) <==> q == finished[0].num || Spec.Reported(finished[1..], q)
      {
        ReportedLater(finished, q);
      }
    }
  }

  lemma ReportedLater(finished: seq<Spec.Completion>, q: Byte)
    requires finished != []
    ensures Spec.Reported(finished, q) <==> q == finished[0].num || Spec.Reported(finished[1..], q)
  {
    if Spec.Reported(finished, q) && q != finished[0].num {
      var i :| 0 <= i < |finished| && finished[i].num == q;
      assert finished[1..][i - 1].num == q;
    }
    if Spec.Reported(finished[1..], q) {
      var i :| 0 <= i < |finished[1..]| && finished[1..][i].num == q;
      assert finished[i + 1].num == q;
    }
  }

  // --------------------------------------------------------- room, queries, reloads

  lemma CoreRoomPost(g: Gate, h: Gate, task: CoreTask)
    requires CoreRoom(g) && h.core.tasks == g.core.tasks + [task]
    requires |g.core.tasks| < CORE_CAPACITY || task.Finish? || task.QueryDone? || task.Barrier?
    ensures CoreRoom(h)
  {
    SumSnoc(g.core.tasks, task, NormalOf);
    CoreCount(g.core.tasks);
  }

  lemma ManageRoomPost(g: Gate, h: Gate, task: ManageTask)
    requires ManageRoom(g) && h.manage.tasks == g.manage.tasks + [task]
    requires |g.manage.tasks| < MANAGE_CAPACITY || task.Publish? || task.Reload?
    ensures ManageRoom(h)
  {
    SumSnoc(g.manage.tasks, task, UplinkOf);
    ManageCount(g.manage.tasks);
  }

  lemma RoomBegun(g: Gate, h: Gate)
    requires CoreRoom(g) && g.core.tasks != [] && h.core.tasks == g.core.tasks[1..]
    ensures CoreRoom(h)
  {
    SumHead(g.core.tasks, NormalOf);
  }

  lemma ManageRoomBegun(g: Gate, h: Gate)
    requires ManageRoom(g) && g.manage.tasks != [] && h.manage.tasks == g.manage.tasks[1..]
    ensures ManageRoom(h)
  {
    SumHead(g.manage.tasks, UplinkOf);
  }

  predicate SameQueries(g: Gate, h: Gate) { h.lookups.tasks == g.lookups.tasks && h.looking == g.looking && h.queries == g.queries }

  lemma QueriesCorePost(g: Gate, h: Gate, task: CoreTask)
    requires Queries(g) && SameQueries(g, h) && h.work == g.work
    requires h.core.tasks == g.core.tasks + [task] && !task.QueryDone?
    ensures Queries(h)
  {
    SumSnoc(g.core.tasks, task, QueryOf);
  }

  lemma QueriesAnswered(g: Gate, h: Gate)
    requires Queries(g) && h.lookups.tasks == g.lookups.tasks && g.looking && !h.looking && h.queries == g.queries
    requires h.work == g.work && h.core.tasks == g.core.tasks + [QueryDone]
    ensures Queries(h)
  {
    SumSnoc(g.core.tasks, QueryDone, QueryOf);
  }

  lemma QueriesBegun(g: Gate, h: Gate)
    requires Queries(g) && SameQueries(g, h) && g.work.Idle? && g.core.tasks != []
    requires h.core.tasks == g.core.tasks[1..] && h.work == Opened(g.core.tasks[0])
    ensures Queries(h)
  {
    SumHead(g.core.tasks, QueryOf);
  }

  lemma ReloadsPost(g: Gate, h: Gate, task: ManageTask)
    requires Reloads(g) && h.manage.tasks == g.manage.tasks + [task] && h.managing == g.managing && h.reload == g.reload
    requires if task.Reload? then g.reloading && !h.reloading else h.reloading == g.reloading
    ensures Reloads(h)
  {
    SumSnoc(g.manage.tasks, task, ReloadOf);
  }

  lemma ReloadsBegun(g: Gate, h: Gate)
    requires Reloads(g) && h.reload == g.reload && h.reloading == g.reloading && g.managing.Free? && g.manage.tasks != []
    requires h.manage.tasks == g.manage.tasks[1..] && h.managing == Handling(g.manage.tasks[0])
    ensures Reloads(h)
  {
    SumHead(g.manage.tasks, ReloadOf);
  }

  // ---------------------------------------------------------------------- fence

  lemma {:induction false} NoBarrier(q: seq<CoreTask>)
    requires |Sum(q, BarrierOf)| == 0
    ensures forall i :: 0 <= i < |q| ==> !q[i].Barrier?
  {
    if q != [] { NoBarrier(q[1..]); }
  }

  lemma BehindSnoc(q: seq<CoreTask>, task: CoreTask)
    requires Behind(q) && (task.Http? ==> forall i :: 0 <= i < |q| ==> !q[i].Barrier?)
    ensures Behind(q + [task])
  {}

  lemma FencePost(g: Gate, h: Gate, task: CoreTask)
    requires Fence(g) && h.work == g.work && h.passed == g.passed && h.core.tasks == g.core.tasks + [task]
    requires if task.Barrier? then g.stage == 3 && h.stage == 4 else h.stage == g.stage
    requires task.Http? ==> g.stage < 3
    ensures Fence(h)
  {
    SumSnoc(g.core.tasks, task, BarrierOf);
    if task.Http? { NoBarrier(g.core.tasks); }
    BehindSnoc(g.core.tasks, task);
  }

  lemma BehindTail(q: seq<CoreTask>)
    requires q != [] && Behind(q)
    ensures Behind(q[1..]) && (q[0].Barrier? ==> NoHttp(q[1..]))
  {}

  lemma FenceBegun(g: Gate, h: Gate)
    requires Fence(g) && h.passed == g.passed && h.stage == g.stage && g.work.Idle? && g.core.tasks != []
    requires h.core.tasks == g.core.tasks[1..] && h.work == Opened(g.core.tasks[0])
    ensures Fence(h)
  {
    SumHead(g.core.tasks, BarrierOf);
    BehindTail(g.core.tasks);
    assert !g.core.tasks[0].Http? || !g.passed;
  }
}
