/** Every step of every thread keeps the accounting invariant. */
module AccountingSteps {
  import opened Protocol
  import opened Mailbox
  import opened Accounting
  import opened AccountingInv
  import opened AccountingMoves
  import Spec = Tracker
  import Sender

  // ------------------------------------------------------------- MQTT callbacks

  lemma ArriveKeeps(g: Gate, h: Gate)
    requires Inv(g) && Arrive(g, h)
    ensures Inv(h)
  {
    TicketArrived(g, h);
  }

  lemma EnterFlow(g: Gate, h: Gate, t: nat)
    requires Flow(g) && Enter(g, h, t)
    ensures Flow(h)
  {
    if Takes(g.core, CORE_CAPACITY) {
      TicketEntered(g, h, t);
      IdsCorePost(g, h, Mqtt(t));
    } else {
      TicketTurnedAway(g, h, t);
    }
  }

  lemma EnterOrder(g: Gate, h: Gate, t: nat)
    requires Order(g) && Enter(g, h, t)
    ensures Order(h)
  {
    if Takes(g.core, CORE_CAPACITY) {
      CoreRoomPost(g, h, Mqtt(t));
      QueriesCorePost(g, h, Mqtt(t));
      FencePost(g, h, Mqtt(t));
    }
  }

  lemma EnterKeeps(g: Gate, h: Gate, t: nat)
    requires Inv(g) && Enter(g, h, t)
    ensures Inv(h)
  {
    EnterFlow(g, h, t);
    EnterOrder(g, h, t);
  }

  lemma LeaveKeeps(g: Gate, h: Gate, t: nat)
    requires Inv(g) && Leave(g, h, t)
    ensures Inv(h)
  {
    TicketLeft(g, h, t);
  }

  lemma CallerKeeps(g: Gate, h: Gate)
    requires Inv(g) && CallerStep(g, h)
    ensures Inv(h)
  {
    if Arrive(g, h) {
      ArriveKeeps(g, h);
    } else if t: nat :| Enter(g, h, t) {
      EnterKeeps(g, h, t);
    } else {
      var t: nat :| Leave(g, h, t);
      LeaveKeeps(g, h, t);
    }
  }

  // ------------------------------------------------------------ business thread

  lemma BeginFlow(g: Gate, h: Gate)
    requires Flow(g) && Begin(g, h)
    ensures Flow(h)
  {
    TicketBegun(g, h);
    IdsBegun(g, h);
  }

  lemma BeginOrder(g: Gate, h: Gate)
    requires Order(g) && Begin(g, h)
    ensures Order(h)
  {
    RoomBegun(g, h);
    QueriesBegun(g, h);
    FenceBegun(g, h);
  }

  lemma BeginKeeps(g: Gate, h: Gate)
    requires Inv(g) && Begin(g, h)
    ensures Inv(h)
  {
    BeginFlow(g, h);
    BeginOrder(g, h);
  }

  /** The work in hand moves on without touching a ticket or an id. */
  predicate Bare(g: Gate, h: Gate) {
    && SameCounts(g, h) && SameOutside(g, h) && SameManaged(g, h) && SameNames(g, h) && SameTransit(g, h)
    && h.commands == g.commands && WorkTicket(h.work) == WorkTicket(g.work) && WorkId(h.work) == WorkId(g.work)
  }

  lemma BareFlow(g: Gate, h: Gate)
    requires Flow(g) && Bare(g, h)
    ensures Flow(h)
  {
    TicketWorked(g, h);
    IdsWorked(g, h);
  }

  lemma FailFlow(g: Gate, h: Gate)
    requires Flow(g) && Translate(g, h, false)
    ensures Flow(h)
  {
    FailIsBare(g, h);
    BareFlow(g, h);
  }

  lemma FailIsBare(g: Gate, h: Gate)
    requires Translate(g, h, false)
    ensures Bare(g, h)
  {}

  lemma FileTickets(g: Gate, h: Gate)
    requires Tickets(g) && Credits(g) && g.nextId !in g.pending && Translate(g, h, true)
    ensures Tickets(h) && Credits(h)
  {
    TicketFiled(g, h, g.nextId);
  }

  lemma FileIds(g: Gate, h: Gate)
    requires Ids(g) && Translate(g, h, true)
    ensures Ids(h) && g.nextId !in g.pending
  {
    assert h.pending.Keys == g.pending.Keys + {g.nextId};
    IdsFiled(g, h);
  }

  lemma FileFlow(g: Gate, h: Gate)
    requires Flow(g) && Translate(g, h, true)
    ensures Flow(h)
  {
    FileIds(g, h);
    FileTickets(g, h);
  }

  lemma TranslateFlow(g: Gate, h: Gate, ok: bool)
    requires Flow(g) && Translate(g, h, ok)
    ensures Flow(h)
  {
    if ok { FileFlow(g, h); } else { FailFlow(g, h); }
  }

  lemma TranslateOrder(g: Gate, h: Gate, ok: bool)
    requires Order(g) && Translate(g, h, ok)
    ensures Order(h)
  {}

  lemma TranslateKeeps(g: Gate, h: Gate, ok: bool)
    requires Inv(g) && Translate(g, h, ok)
    ensures Inv(h)
  {
    TranslateFlow(g, h, ok);
    TranslateOrder(g, h, ok);
  }

  lemma EraseFlow(g: Gate, h: Gate)
    requires Flow(g) && (g.work.Submitting? || g.work.Finishing?) && EraseThenPublish(g, h, g.work.id)
    ensures Flow(h)
  {
    WorkIsPending(g);
    TicketErased(g, h, g.work.id);
    IdsErased(g, h);
  }

  lemma EraseOrder(g: Gate, h: Gate)
    requires Order(g) && (g.work.Submitting? || g.work.Finishing?) && EraseThenPublish(g, h, g.work.id)
    ensures Order(h)
  {}

  lemma EraseKeeps(g: Gate, h: Gate)
    requires Inv(g) && (g.work.Submitting? || g.work.Finishing?) && EraseThenPublish(g, h, g.work.id)
    ensures Inv(h)
  {
    EraseFlow(g, h);
    EraseOrder(g, h);
  }

  lemma SubmitFlow(g: Gate, h: Gate, stopping: bool)
    requires Flow(g) && Submit(g, h, stopping)
    ensures Flow(h)
  {
    if Refuses(g, stopping) {
      EraseFlow(g, h);
    } else {
      TicketWorked(g, h);
      IdsSubmitted(g, h);
    }
  }

  lemma SubmitOrder(g: Gate, h: Gate, stopping: bool)
    requires Order(g) && Submit(g, h, stopping)
    ensures Order(h)
  {
    if Refuses(g, stopping) { EraseOrder(g, h); }
  }

  lemma SubmitKeeps(g: Gate, h: Gate, stopping: bool)
    requires Inv(g) && Submit(g, h, stopping)
    ensures Inv(h)
  {
    SubmitFlow(g, h, stopping);
    SubmitOrder(g, h, stopping);
  }

  lemma PublishFlow(g: Gate, h: Gate)
    requires Flow(g) && PostPublish(g, h) && Takes(g.manage, MANAGE_CAPACITY + MANAGE_RESERVE)
    ensures Flow(h)
  {
    TicketPosted(g, h);
    IdsWorked(g, h);
  }

  lemma PublishOrder(g: Gate, h: Gate)
    requires Order(g) && PostPublish(g, h) && Takes(g.manage, MANAGE_CAPACITY + MANAGE_RESERVE)
    ensures Order(h)
  {
    ManageRoomPost(g, h, Publish(g.work.ticket));
    ReloadsPost(g, h, Publish(g.work.ticket));
  }

  lemma PublishKeeps(g: Gate, h: Gate)
    requires Inv(g) && PostPublish(g, h)
    ensures Inv(h)
  {
    ManageHasRoom(g);
    PublishFlow(g, h);
    PublishOrder(g, h);
  }

  lemma CommandKeeps(g: Gate, h: Gate)
    requires Inv(g) && CommandStep(g, h)
    ensures Inv(h)
  {
    if ok: bool :| Translate(g, h, ok) {
      TranslateKeeps(g, h, ok);
    } else if stopping: bool :| Submit(g, h, stopping) {
      SubmitKeeps(g, h, stopping);
    } else {
      TaskKeeps(g, h);
    }
  }

  lemma TaskKeeps(g: Gate, h: Gate)
    requires Inv(g) && (Begin(g, h) || Erase(g, h) || PostPublish(g, h) || Release(g, h))
    ensures Inv(h)
  {
    if Begin(g, h) {
      BeginKeeps(g, h);
    } else if Erase(g, h) {
      EraseKeeps(g, h);
    } else {
      PublishKeeps(g, h);
    }
  }

  // ------------------------------------------------------ telemetry, HTTP, queries

  lemma UplinkKeeps(g: Gate, h: Gate)
    requires Inv(g) && PostUplink(g, h)
    ensures Inv(h)
  {
    if Takes(g.manage, MANAGE_CAPACITY) {
      TicketsManagePost(g, h, Uplink);
      ManageRoomPost(g, h, Uplink);
      ReloadsPost(g, h, Uplink);
    }
  }

  lemma FinishedOrder(g: Gate, h: Gate)
    requires Order(g) && Finished(g, h)
    ensures Order(h)
  {}

  lemma FinishedFlow(g: Gate, h: Gate)
    requires Flow(g) && Finished(g, h)
    ensures Flow(h)
  {
    FinishedIsBare(g, h);
    BareFlow(g, h);
  }

  lemma FinishedIsBare(g: Gate, h: Gate)
    requires Finished(g, h)
    ensures Bare(g, h)
  {}

  lemma FinishedKeeps(g: Gate, h: Gate)
    requires Inv(g) && Finished(g, h)
    ensures Inv(h)
  {
    FinishedFlow(g, h);
    FinishedOrder(g, h);
  }

  lemma AskOrder(g: Gate, h: Gate)
    requires Order(g) && Ask(g, h)
    ensures Order(h)
  {}

  lemma AskFlow(g: Gate, h: Gate)
    requires Flow(g) && Ask(g, h)
    ensures Flow(h)
  {
    AskIsBare(g, h);
    BareFlow(g, h);
  }

  lemma AskIsBare(g: Gate, h: Gate)
    requires Ask(g, h)
    ensures Bare(g, h)
  {}

  lemma AskKeeps(g: Gate, h: Gate)
    requires Inv(g) && Ask(g, h)
    ensures Inv(h)
  {
    AskFlow(g, h);
    AskOrder(g, h);
  }

  lemma PostQueryOrder(g: Gate, h: Gate)
    requires Order(g) && PostQuery(g, h)
    ensures Order(h)
  {}

  lemma PostQueryFlow(g: Gate, h: Gate)
    requires Flow(g) && PostQuery(g, h)
    ensures Flow(h)
  {
    PostQueryIsBare(g, h);
    BareFlow(g, h);
  }

  lemma PostQueryIsBare(g: Gate, h: Gate)
    requires PostQuery(g, h)
    ensures Bare(g, h)
  {}

  lemma PostQueryKeeps(g: Gate, h: Gate)
    requires Inv(g) && PostQuery(g, h)
    ensures Inv(h)
  {
    PostQueryFlow(g, h);
    PostQueryOrder(g, h);
  }

  lemma UncountOrder(g: Gate, h: Gate)
    requires Order(g) && Uncount(g, h)
    ensures Order(h)
  {}

  lemma UncountFlow(g: Gate, h: Gate)
    requires Flow(g) && Uncount(g, h)
    ensures Flow(h)
  {
    UncountIsBare(g, h);
    BareFlow(g, h);
  }

  lemma UncountIsBare(g: Gate, h: Gate)
    requires Uncount(g, h)
    ensures Bare(g, h)
  {}

  lemma UncountKeeps(g: Gate, h: Gate)
    requires Inv(g) && Uncount(g, h)
    ensures Inv(h)
  {
    UncountFlow(g, h);
    UncountOrder(g, h);
  }

  lemma PassOrder(g: Gate, h: Gate)
    requires Order(g) && Pass(g, h)
    ensures Order(h)
  {}

  lemma PassFlow(g: Gate, h: Gate)
    requires Flow(g) && Pass(g, h)
    ensures Flow(h)
  {
    PassIsBare(g, h);
    BareFlow(g, h);
  }

  lemma PassIsBare(g: Gate, h: Gate)
    requires Pass(g, h)
    ensures Bare(g, h)
  {}

  lemma PassKeeps(g: Gate, h: Gate)
    requires Inv(g) && Pass(g, h)
    ensures Inv(h)
  {
    PassFlow(g, h);
    PassOrder(g, h);
  }

  lemma AnswerKeeps(g: Gate, h: Gate)
    requires Inv(g) && Answer(g, h)
    ensures Inv(h)
  {
    CoreHasRoom(g);
    TicketsCorePost(g, h, QueryDone);
    IdsCorePost(g, h, QueryDone);
    CoreRoomPost(g, h, QueryDone);
    QueriesAnswered(g, h);
    FencePost(g, h, QueryDone);
  }

  lemma ServiceKeeps(g: Gate, h: Gate)
    requires Inv(g) && ServiceStep(g, h)
    ensures Inv(h)
  {
    if PostUplink(g, h) {
      UplinkKeeps(g, h);
    } else if Answer(g, h) {
      AnswerKeeps(g, h);
    } else if LookUp(g, h) {
      LookUpKeeps(g, h);
    } else {
      WorkKeeps(g, h);
    }
  }

  lemma WorkKeeps(g: Gate, h: Gate)
    requires Inv(g) && (Finished(g, h) || Ask(g, h) || PostQuery(g, h) || Uncount(g, h) || Pass(g, h))
    ensures Inv(h)
  {
    if Finished(g, h) {
      FinishedKeeps(g, h);
    } else if Ask(g, h) {
      AskKeeps(g, h);
    } else if PostQuery(g, h) {
      PostQueryKeeps(g, h);
    } else if Uncount(g, h) {
      UncountKeeps(g, h);
    } else {
      PassKeeps(g, h);
    }
  }

  lemma LookUpKeeps(g: Gate, h: Gate)
    requires Inv(g) && LookUp(g, h)
    ensures Inv(h)
  {
    TicketsSame(g, h);
  }

  // -------------------------------------------------------------------- reactor

  lemma PullAsideKeeps(g: Gate, h: Gate, args: Bytes)
    requires Inv(g) && PullAside(g, h, args)
    ensures Inv(h)
  {
    TicketsSame(g, h);
    IdsPulledAside(g, h);
  }

  /** The next number is not in flight. */
  lemma NextIsFree(t: Spec.Tracker)
    requires Spec.Valid(t)
    ensures t.next !in t.entries
  {
    assert forall q :: q in t.entries ==> Spec.EntryOk(t, q, t.entries[q]);
  }

  lemma SubmitAdds(t: Spec.Tracker, kind: Byte, args: Bytes, now: int)
    requires Spec.Valid(t) && Spec.Accepts(t, args)
    ensures Spec.Valid(Spec.Submit(t, kind, args, now).t)
    ensures Spec.Submit(t, kind, args, now).t.entries.Keys == t.entries.Keys + {t.next}
  {
    Sender.ReactKeeps(t, Sender.Offer(kind, args, now));
  }

  lemma PullInMatched(g: Gate, h: Gate, kind: Byte, args: Bytes, now: int)
    requires Matched(g) && PullIn(g, h, kind, args, now)
    ensures Matched(h) && g.tracker.next !in g.requests && h.requests == g.requests[g.tracker.next := g.commands[0]]
  {
    NextIsFree(g.tracker);
    SubmitAdds(g.tracker, kind, args, now);
  }

  lemma PullInKeeps(g: Gate, h: Gate, kind: Byte, args: Bytes, now: int)
    requires Inv(g) && PullIn(g, h, kind, args, now)
    ensures Inv(h)
  {
    TicketsSame(g, h);
    PullInMatched(g, h, kind, args, now);
    IdsPulledIn(g, h, g.tracker.next);
  }

  lemma DriveMatched(g: Gate, h: Gate, input: Sender.Input)
    requires Matched(g) && Drive(g, h, input)
    ensures Matched(h)
  {
    Sender.ReactKeeps(g.tracker, input);
    RemainingKeys(g.requests, Sender.React(g.tracker, input).finished);
  }

  lemma DriveFlow(g: Gate, h: Gate, input: Sender.Input)
    requires Flow(g) && Drive(g, h, input)
    ensures Flow(h)
  {
    TicketsSame(g, h);
    Harvest(g.requests, Sender.React(g.tracker, input).finished);
    IdsHarvested(g, h);
  }

  lemma DriveOrder(g: Gate, h: Gate, input: Sender.Input)
    requires Order(g) && Drive(g, h, input)
    ensures Order(h)
  {}

  lemma DriveKeeps(g: Gate, h: Gate, input: Sender.Input)
    requires Inv(g) && Drive(g, h, input)
    ensures Inv(h)
  {
    DriveFlow(g, h, input);
    DriveOrder(g, h, input);
    DriveMatched(g, h, input);
  }

  lemma FinishIds(g: Gate, h: Gate)
    requires Ids(g) && PostFinish(g, h) && Takes(g.core, CORE_CAPACITY + CORE_RESERVE)
    ensures Ids(h)
  {
    assert g.todo == [g.todo[0]] + h.todo;
    IdsCorePost(g, h, Finish(g.todo[0]));
  }

  lemma FinishFlow(g: Gate, h: Gate)
    requires Flow(g) && PostFinish(g, h) && Takes(g.core, CORE_CAPACITY + CORE_RESERVE)
    ensures Flow(h)
  {
    TicketsCorePost(g, h, Finish(g.todo[0]));
    FinishIds(g, h);
  }

  lemma FinishOrder(g: Gate, h: Gate)
    requires Order(g) && PostFinish(g, h) && Takes(g.core, CORE_CAPACITY + CORE_RESERVE)
    ensures Order(h)
  {
    CoreRoomPost(g, h, Finish(g.todo[0]));
    QueriesCorePost(g, h, Finish(g.todo[0]));
    FencePost(g, h, Finish(g.todo[0]));
  }

  lemma FinishKeeps(g: Gate, h: Gate)
    requires Inv(g) && PostFinish(g, h)
    ensures Inv(h)
  {
    CoreHasRoom(g);
    FinishFlow(g, h);
    FinishOrder(g, h);
  }

  lemma InputKeeps(g: Gate, h: Gate, task: CoreTask)
    requires Inv(g) && PostInput(g, h, task)
    ensures Inv(h)
  {
    if Takes(g.core, CORE_CAPACITY) {
      TicketsCorePost(g, h, task);
      IdsCorePost(g, h, task);
      CoreRoomPost(g, h, task);
      QueriesCorePost(g, h, task);
      FencePost(g, h, task);
    }
  }

  lemma ReactorKeeps(g: Gate, h: Gate)
    requires Inv(g) && ReactorStep(g, h)
    ensures Inv(h)
  {
    if args: Bytes :| PullAside(g, h, args) {
      PullAsideKeeps(g, h, args);
    } else if kind: Byte, args: Bytes, now: int :| PullIn(g, h, kind, args, now) {
      PullInKeeps(g, h, kind, args, now);
    } else if input: Sender.Input :| Drive(g, h, input) {
      DriveKeeps(g, h, input);
    } else if PostFinish(g, h) {
      FinishKeeps(g, h);
    } else {
      var task: CoreTask :| PostInput(g, h, task);
      InputKeeps(g, h, task);
    }
  }

  // ----------------------------------------------------------------- management

  lemma ManageBeginFlow(g: Gate, h: Gate)
    requires Flow(g) && ManageBegin(g, h)
    ensures Flow(h)
  {
    TicketManaged(g, h);
  }

  lemma ManageBeginOrder(g: Gate, h: Gate)
    requires Order(g) && ManageBegin(g, h)
    ensures Order(h)
  {
    ManageRoomBegun(g, h);
    ReloadsBegun(g, h);
  }

  lemma ManageBeginKeeps(g: Gate, h: Gate)
    requires Inv(g) && ManageBegin(g, h)
    ensures Inv(h)
  {
    ManageBeginFlow(g, h);
    ManageBeginOrder(g, h);
  }

  lemma MqttPublishFlow(g: Gate, h: Gate)
    requires Flow(g) && MqttPublish(g, h)
    ensures Flow(h)
  {
    TicketManaging(g, h);
  }

  lemma MqttPublishOrder(g: Gate, h: Gate)
    requires Order(g) && MqttPublish(g, h)
    ensures Order(h)
  {
    PublishCounted(g, h);
  }

  lemma PublishCounted(g: Gate, h: Gate)
    requires Published(g) && MqttPublish(g, h)
    ensures Published(h)
  {
    More(g.released, multiset{}, multiset{}, multiset{g.managing.ticket});
  }

  lemma MqttPublishKeeps(g: Gate, h: Gate)
    requires Inv(g) && MqttPublish(g, h)
    ensures Inv(h)
  {
    MqttPublishFlow(g, h);
    MqttPublishOrder(g, h);
  }

  lemma ReleaseCreditFlow(g: Gate, h: Gate)
    requires Flow(g) && ReleaseCredit(g, h)
    ensures Flow(h)
  {
    TicketReleased(g, h);
  }

  lemma ReleaseCreditOrder(g: Gate, h: Gate)
    requires Order(g) && ReleaseCredit(g, h)
    ensures Order(h)
  {}

  lemma ReleaseCreditKeeps(g: Gate, h: Gate)
    requires Inv(g) && ReleaseCredit(g, h)
    ensures Inv(h)
  {
    ReleaseCreditFlow(g, h);
    ReleaseCreditOrder(g, h);
  }

  lemma ManageDoneFlow(g: Gate, h: Gate)
    requires Flow(g) && ManageDone(g, h)
    ensures Flow(h)
  {
    TicketManaging(g, h);
  }

  lemma ManageDoneOrder(g: Gate, h: Gate)
    requires Order(g) && ManageDone(g, h)
    ensures Order(h)
  {}

  lemma ManageDoneKeeps(g: Gate, h: Gate)
    requires Inv(g) && ManageDone(g, h)
    ensures Inv(h)
  {
    ManageDoneFlow(g, h);
    ManageDoneOrder(g, h);
  }

  lemma AskReloadKeeps(g: Gate, h: Gate)
    requires Inv(g) && AskReload(g, h)
    ensures Inv(h)
  {
    TicketsSame(g, h);
  }

  lemma PostReloadKeeps(g: Gate, h: Gate)
    requires Inv(g) && PostReload(g, h)
    ensures Inv(h)
  {
    ManageHasRoom(g);
    TicketsManagePost(g, h, Reload);
    ManageRoomPost(g, h, Reload);
    ReloadsPost(g, h, Reload);
  }

  lemma ManageKeeps(g: Gate, h: Gate)
    requires Inv(g) && ManageStep(g, h)
    ensures Inv(h)
  {
    if ManageBegin(g, h) {
      ManageBeginKeeps(g, h);
    } else if MqttPublish(g, h) {
      MqttPublishKeeps(g, h);
    } else if ReleaseCredit(g, h) {
      ReleaseCreditKeeps(g, h);
    } else if ManageDone(g, h) {
      ManageDoneKeeps(g, h);
    } else if AskReload(g, h) {
      AskReloadKeeps(g, h);
    } else {
      PostReloadKeeps(g, h);
    }
  }

  // ----------------------------------------------------------------- destructor

  lemma RetireKeeps(g: Gate, h: Gate)
    requires Inv(g) && Retire(g, h)
    ensures Inv(h)
  {
    TicketsSame(g, h);
  }

  lemma DrainQueueKeeps(g: Gate, h: Gate)
    requires Inv(g) && DrainQueue(g, h)
    ensures Inv(h)
  {
    TicketsSame(g, h);
    IdsPulledAside(g, h);
  }

  lemma DrainRequestsKeeps(g: Gate, h: Gate, finished: seq<Spec.Completion>)
    requires Inv(g) && DrainRequests(g, h, finished)
    ensures Inv(h)
  {
    TicketsSame(g, h);
    Harvest(g.requests, finished);
    IdsHarvested(g, h);
  }

  lemma BarrierKeeps(g: Gate, h: Gate)
    requires Inv(g) && PostBarrier(g, h)
    ensures Inv(h)
  {
    CoreHasRoom(g);
    TicketsCorePost(g, h, Barrier);
    IdsCorePost(g, h, Barrier);
    CoreRoomPost(g, h, Barrier);
    QueriesCorePost(g, h, Barrier);
    FencePost(g, h, Barrier);
  }

  lemma CloseKeeps(g: Gate, h: Gate)
    requires Inv(g) && Close(g, h)
    ensures Inv(h)
  {
    TicketsSame(g, h);
  }

  lemma MainKeeps(g: Gate, h: Gate)
    requires Inv(g) && MainStep(g, h)
    ensures Inv(h)
  {
    if Retire(g, h) {
      RetireKeeps(g, h);
    } else if DrainQueue(g, h) {
      DrainQueueKeeps(g, h);
    } else if finished: seq<Spec.Completion> :| DrainRequests(g, h, finished) {
      DrainRequestsKeeps(g, h, finished);
    } else if PostBarrier(g, h) {
      BarrierKeeps(g, h);
    } else {
      CloseKeeps(g, h);
    }
  }

  // ------------------------------------------------------------------- all steps

  lemma StartFlow(g: Gate)
    requires g == Start()
    ensures Flow(g)
  {
    StartTickets(g);
    assert g.requests.Values == {} && g.pending.Keys == {};
    assert Carried(g) == multiset{};
  }

  lemma StartTickets(g: Gate)
    requires g == Start()
    ensures Tickets(g) && Credits(g)
  {
    assert g.pending.Values == {};
    assert Live(g) == multiset{} && Over(g) == multiset{};
  }

  lemma StartOrder(g: Gate)
    requires g == Start()
    ensures Order(g)
  {}

  lemma StartInv(g: Gate)
    requires g == Start()
    ensures Inv(g)
  {
    StartFlow(g);
    StartOrder(g);
    assert Spec.Valid(g.tracker);
  }

  lemma StepInv(g: Gate, h: Gate)
    requires Inv(g) && Step(g, h)
    ensures Inv(h)
  {
    if CallerStep(g, h) {
      CallerKeeps(g, h);
    } else if CommandStep(g, h) {
      CommandKeeps(g, h);
    } else if ServiceStep(g, h) {
      ServiceKeeps(g, h);
    } else if ReactorStep(g, h) {
      ReactorKeeps(g, h);
    } else if ManageStep(g, h) {
      ManageKeeps(g, h);
    } else {
      MainKeeps(g, h);
    }
  }
}
